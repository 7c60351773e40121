/** The two paginated lists of the service: tickets in wave order, and comments across a project. */
module Listing {
  import opened Common
  import opened Board
  import opened Cursor
  import AuditTrail
  import BoardCalls
  import BoardLaws
  import ProjectService
  import TicketTree
  import Text
  import Ordering

  // ----- Tickets -----

  const MAX_INT: nat := 0x7FFF_FFFF_FFFF_FFFF

  /** Wave 0 means unassigned and sorts last. */
  function SortWave(w: nat): nat {
    if w == 0 then MAX_INT else w
  }

  predicate TicketLess(a: Ticket, b: Ticket) {
    if SortWave(a.wave) != SortWave(b.wave) then SortWave(a.wave) < SortWave(b.wave)
    else if a.createdAt != b.createdAt then a.createdAt < b.createdAt
    else Ordering.StrLess(a.id, b.id)
  }

  ghost predicate SameIdSameTicket(s: seq<Ticket>) {
    forall x, y :: x in s && y in s && x.id == y.id ==> x == y
  }

  lemma TicketLessTransitive(a: Ticket, b: Ticket, c: Ticket)
    requires TicketLess(a, b) && TicketLess(b, c)
    ensures TicketLess(a, c)
  {
    if a.id != b.id && b.id != c.id && Ordering.StrLess(a.id, b.id) && Ordering.StrLess(b.id, c.id) {
      Ordering.StrTransitive(a.id, b.id, c.id);
    }
  }

  /** A strict total order on tickets with distinct ids. */
  lemma TicketOrder(s: seq<Ticket>)
    requires SameIdSameTicket(s)
    ensures Ordering.StrictTotal(TicketLess, s)
  {
    forall x: Ticket, y: Ticket, z: Ticket | TicketLess(x, y) && TicketLess(y, z) ensures TicketLess(x, z) {
      TicketLessTransitive(x, y, z);
    }
    forall x: Ticket ensures !TicketLess(x, x) {
      Ordering.StrIrreflexive(x.id);
    }
    forall x, y | x in s && y in s ensures x == y || TicketLess(x, y) || TicketLess(y, x) {
      Ordering.StrTrichotomous(x.id, y.id);
    }
  }

  datatype TicketQuery = TicketQuery(
    column: Option<Column>, phase: Option<string>, wave: Option<nat>, readyOnly: bool,
    includeArchived: bool, onlyIdeas: bool, includeIdeas: bool)

  const READY := TicketQuery(None, None, None, true, false, false, false)

  /** None is any phase, "-" is no phase, otherwise an id or a slug. */
  predicate PhaseMatches(phase: Option<Id>, filter: Option<string>, phasesBySlug: map<string, Id>) {
    match filter
    case None => true
    case Some(ref) =>
      if ref == "-" then phase.None?
      else phase.Some? && (phase.value == ref || (ref in phasesBySlug && phasesBySlug[ref] == phase.value))
  }

  predicate Listed(tickets: map<Id, Ticket>, phasesBySlug: map<string, Id>, q: TicketQuery, t: Ticket) {
    && (!t.archived || q.includeArchived)
    && (if q.onlyIdeas then t.kind == Idea else t.kind != Idea || q.includeIdeas)
    && (q.column.Some? ==> t.column == q.column.value)
    && PhaseMatches(t.phase, q.phase, phasesBySlug)
    && (q.wave.Some? ==> t.wave == q.wave.value)
    && (q.readyOnly ==>
      t.kind != Idea && BlockedBy(tickets, t.dependsOn) == [] && (t.column == Todo || t.column == InProgress))
  }

  /** The whole list that a query pages through: the matching tickets in order. */
  ghost predicate IsListing(full: seq<Ticket>, tickets: map<Id, Ticket>, phasesBySlug: map<string, Id>,
                            q: TicketQuery)
  {
    && Ordering.Sorted(full, TicketLess)
    && forall t :: t in full <==> t.id in tickets && tickets[t.id] == t && Listed(tickets, phasesBySlug, q, t)
  }

  function TicketKey(t: Ticket): (Time, Id) {
    (t.createdAt, t.id)
  }

  /** Over unchanged tickets every call pages through the same list. */
  lemma ListingUnique(s: seq<Ticket>, t: seq<Ticket>, tickets: map<Id, Ticket>, phasesBySlug: map<string, Id>,
                      q: TicketQuery)
    requires IsListing(s, tickets, phasesBySlug, q) && IsListing(t, tickets, phasesBySlug, q)
    ensures s == t
  {
    TicketOrder(s);
    TicketOrder(t);
    Ordering.SortedNoDup(s, TicketLess);
    Ordering.SortedNoDup(t, TicketLess);
    Ordering.NoDupSize(s);
    Ordering.NoDupSize(t);
    assert (set x | x in s) == (set x | x in t);
    Ordering.SortedUnique(s, t, TicketLess);
  }

  lemma ListingKeyed(full: seq<Ticket>, tickets: map<Id, Ticket>, phasesBySlug: map<string, Id>, q: TicketQuery)
    requires IsListing(full, tickets, phasesBySlug, q)
    requires BoardLaws.NamedIds(tickets) && forall id :: id in tickets ==> Representable(tickets[id].createdAt)
    ensures Keyed(full, TicketKey)
  {
    BoardLaws.BlankIsEmpty();
    hide Listed, Text.Blank;
    TicketOrder(full);
    Ordering.SortedNoDup(full, TicketLess);
    forall i, j | 0 <= i < j < |full| ensures TicketKey(full[i]) != TicketKey(full[j]) {
      assert full[i] in full && full[j] in full;
    }
  }

  method ListTickets(c: Codec, tickets: map<Id, Ticket>, phasesBySlug: map<string, Id>, q: TicketQuery,
                     cursor: string, limit: int)
    returns (res: Result<(seq<Ticket>, string)>)
    requires forall id :: id in tickets ==> tickets[id].id == id
    ensures exists full ::
      IsListing(full, tickets, phasesBySlug, q) && res == Page(c, full, TicketKey, cursor, Cursor.ClampLimit(limit))
  {
    hide Listed, TicketLess;
    var out: seq<Ticket> := [];
    var rest := tickets.Keys;
    while rest != {}
      invariant rest <= tickets.Keys && Ordering.NoDup(out)
      invariant forall t :: t in out <==>
        t.id in tickets && t.id !in rest && tickets[t.id] == t && Listed(tickets, phasesBySlug, q, t)
      decreases |rest|
    {
      var id :| id in rest;
      rest := rest - {id};
      if Listed(tickets, phasesBySlug, q, tickets[id]) {
        assert tickets[id] !in out;
        out := out + [tickets[id]];
      }
    }
    TicketOrder(out);
    Ordering.SortIsSorted(out, TicketLess);
    var sorted := Ordering.Sort(out, TicketLess);
    assert IsListing(sorted, tickets, phasesBySlug, q);
    res := TakePage(c, sorted, TicketKey, cursor, Cursor.ClampLimit(limit));
  }

  /** Following next_cursor over unchanged tickets yields the whole sorted, filtered list, each once. */
  lemma TicketPagesPartition(c: Codec, b: Board, full: seq<Ticket>, phasesBySlug: map<string, Id>, q: TicketQuery,
                             limit: int, pages: seq<seq<Ticket>>, cursors: seq<string>)
    requires Faithful(c) && BoardLaws.Inv(b) && IsListing(full, b.tickets, phasesBySlug, q)
    requires forall id :: id in b.tickets ==> Representable(b.tickets[id].createdAt)
    requires IsWalk(c, full, TicketKey, Cursor.ClampLimit(limit), pages, cursors)
    ensures Flatten(pages) == full
  {
    hide IsListing, IsWalk, Flatten, Faithful, Text.Blank;
    ListingKeyed(full, b.tickets, phasesBySlug, q);
    WalkIsWhole(c, full, TicketKey, Cursor.ClampLimit(limit), pages, cursors);
  }

  /** The ready list is the pending work that nothing blocks, less what is archived or in testing. */
  lemma ReadyListIs(b: Board, phasesBySlug: map<string, Id>, full: seq<Ticket>, id: Id)
    requires BoardLaws.Inv(b) && id in b.tickets && IsListing(full, b.tickets, phasesBySlug, READY)
    ensures b.tickets[id] in full <==>
      && id in BoardLaws.Pending(b.tickets) && BlockedBy(b.tickets, b.tickets[id].dependsOn) == []
      && !b.tickets[id].archived && b.tickets[id].column != Testing
  {
    hide BoardLaws.Inv, Ordering.Sorted, BlockedBy, BoardLaws.CompletionFits, AuditTrail.Explains, Text.Blank;
    BoardLaws.TicketFacts(b, id);
  }

  /** While work is pending there is an unblocked pending ticket, and the ready list names it unless it
      is archived or in testing. */
  lemma ReadyListNamesWork(b: Board, phasesBySlug: map<string, Id>, full: seq<Ticket>) returns (id: Id)
    requires BoardLaws.Inv(b) && BoardLaws.Pending(b.tickets) != {}
    requires IsListing(full, b.tickets, phasesBySlug, READY)
    ensures id in BoardLaws.Pending(b.tickets) && BlockedBy(b.tickets, b.tickets[id].dependsOn) == []
    ensures b.tickets[id] in full <==> !b.tickets[id].archived && b.tickets[id].column != Testing
  {
    hide BoardLaws.Inv, IsListing;
    id := BoardLaws.SomethingIsUnblocked(b);
    ReadyListIs(b, phasesBySlug, full, id);
  }

  /** What a walk is still to see of a list that changed since its last page: the tickets behind the
      present place of the anchor, whose wave may have changed, and nothing when it is not listed. */
  lemma WalkContinuesBehind(now: seq<Ticket>, tickets: map<Id, Ticket>, phasesBySlug: map<string, Id>, q: TicketQuery,
                            anchor: (Time, Id), t: Ticket)
    requires IsListing(now, tickets, phasesBySlug, q) && t in now
    ensures t in now[Behind(now, TicketKey, anchor)..] <==>
      exists a :: a in now && TicketKey(a) == anchor && TicketLess(a, t)
  {
    hide Listed, TicketLess, Behind;
    TicketOrder(now);
    Ordering.SortedNoDup(now, TicketLess);
    forall i, j | 0 <= i < j < |now| ensures TicketKey(now[i]) != TicketKey(now[j]) {
      assert now[i] in now && now[j] in now;
    }
    var j :| 0 <= j < |now| && now[j] == t;
    if i :| 0 <= i < |now| && TicketKey(now[i]) == anchor {
      BehindFinds(now, TicketKey, i);
      LaterIsGreater(now, i, j);
    } else {
      BehindMisses(now, TicketKey, anchor);
    }
  }

  /** Ready for anyone, and fit for a cursor. */
  predicate IsReadyWork(t: Ticket) {
    t.kind == Work && t.column == Todo && !t.archived && t.dependsOn == [] && t.id != "" && Representable(t.createdAt)
  }

  /** Two ready tickets, one a page: once the first is in testing, the walk ends without the second. */
  lemma AnchorGoneEndsWalk(c: Codec, a: Ticket, b: Ticket)
    requires Faithful(c) && IsReadyWork(a) && IsReadyWork(b) && a.id != b.id && TicketLess(a, b)
    ensures
      var before, after := map[a.id := a, b.id := b], map[a.id := a.(column := Testing), b.id := b];
      var cursor := EncodeCursor(c, a.createdAt, a.id);
      && IsListing([a, b], before, map[], READY) && Page(c, [a, b], TicketKey, "", 1) == Ok(([a], cursor))
      && IsListing([b], after, map[], READY) && Page(c, [b], TicketKey, cursor, 1) == Ok(([], ""))
  {
    hide TicketLess, EncodeCursor, DecodeCursor, Faithful;
    assert BlockedBy(map[a.id := a, b.id := b], []) == [];
    assert [a, b][..1] == [a];
    CursorRoundTripIff(c, a.createdAt, a.id);
    BehindMisses([b], TicketKey, TicketKey(a));
  }

  lemma LaterIsGreater(s: seq<Ticket>, i: nat, j: nat)
    requires i < |s| && j < |s| && Ordering.Sorted(s, TicketLess) && Ordering.NoDup(s) && SameIdSameTicket(s)
    ensures s[j] in s[i + 1..] <==> TicketLess(s[i], s[j])
  {
    hide TicketLess;
    TicketOrder(s);
    assert s[i] in s && s[j] in s;
    if i < j {
      assert s[i + 1..][j - i - 1] == s[j];
    }
    if s[j] in s[i + 1..] {
      var k :| i + 1 <= k < |s| && s[k] == s[j];
      assert k == j;
    }
  }

  /** A new ticket is on the ready list exactly when it is work and all it depends on is done. */
  lemma NewTicketIsReadyIff(b: Board, arg: CreateInput, c: Call, phasesBySlug: map<string, Id>, full: seq<Ticket>)
    requires Create(b, arg, c).Ok? && c.newId !in b.tickets
    requires IsListing(full, Create(b, arg, c).value.tickets, phasesBySlug, READY)
    ensures
      var next := Create(b, arg, c).value;
      && c.newId in next.tickets
      && (next.tickets[c.newId] in full <==>
          arg.kind == Work && forall d :: d in arg.dependsOn ==> d in b.tickets && b.tickets[d].column == Done)
  {
    BoardCalls.CreateMeans(b, arg, c);
    BoardCalls.NewTicketIsBlocked(b, arg, c);
    hide Create, Ordering.Sorted, BlockedBy, BoardCalls.Added;
    assert Create(b, arg, c).value.tickets[c.newId].id == c.newId;
  }

  /** Cursors carry the creation time and the id. */
  lemma KeysMean(t: Ticket, x: ScopedComment)
    ensures TicketKey(t) == (t.createdAt, t.id) && CommentKey(x) == (x.comment.at, x.comment.id)
  {
  }

  /** What each filter of a query lets through. */
  lemma ListedMeans(tickets: map<Id, Ticket>, phasesBySlug: map<string, Id>, q: TicketQuery, t: Ticket)
    ensures Listed(tickets, phasesBySlug, q, t) <==>
      && (t.archived ==> q.includeArchived)
      && (t.kind == Idea ==> q.includeIdeas || q.onlyIdeas) && (t.kind == Work ==> !q.onlyIdeas)
      && (q.column.None? || q.column == Some(t.column)) && (q.wave.None? || q.wave == Some(t.wave))
      && (q.phase == Some("-") ==> t.phase == None)
      && (q.phase.Some? && q.phase.value != "-" ==>
            t.phase.Some? && (t.phase == q.phase
                              || (q.phase.value in phasesBySlug && t.phase == Some(phasesBySlug[q.phase.value]))))
      && (q.readyOnly ==>
            && t.kind == Work && t.column != Testing && t.column != Done
            && forall d :: d in t.dependsOn ==> d in tickets && tickets[d].column == Done)
  {
    BoardCalls.NothingBlocks(tickets, t.dependsOn);
    hide BlockedBy;
  }

  /** Waves in order, the tickets without one last; within a wave by creation time, then by id. */
  lemma ListedInOrder(full: seq<Ticket>, tickets: map<Id, Ticket>, phasesBySlug: map<string, Id>, q: TicketQuery,
                      i: nat, j: nat)
    requires IsListing(full, tickets, phasesBySlug, q) && i < j < |full|
    requires full[i].wave < MAX_INT && full[j].wave < MAX_INT
    ensures
      var s, t := full[i], full[j];
      && (s.wave == 0 ==> t.wave == 0) && (t.wave == 0 || s.wave <= t.wave)
      && (s.wave == t.wave ==> s.createdAt <= t.createdAt)
      && (s.wave == t.wave && s.createdAt == t.createdAt ==> Ordering.StrLess(s.id, t.id))
  {
    hide Listed;
    assert TicketLess(full[i], full[j]);
  }

  // ----- Comments -----

  datatype ScopedComment = ScopedComment(comment: Comment, ticketTitle: string)

  /** Empty strings and lists are filters that were not given. */
  datatype CommentQuery = CommentQuery(
    ticket: string, phase: string, excludeSystem: bool, kinds: seq<CommentKind>,
    author: string, authorName: string, excludeAuthor: string, since: Option<Time>, until: Option<Time>,
    descending: bool)

  /** names: by comment id, the author name that the comment's cached reference carries. */
  predicate CommentMatches(x: Comment, q: CommentQuery, names: Id -> string) {
    && (q.excludeSystem ==> x.kind == User)
    && (q.kinds != [] ==> x.kind in q.kinds)
    && (q.author != "" ==> x.author == q.author)
    && (q.authorName != "" ==> names(x.id) == q.authorName)
    && (q.excludeAuthor != "" ==> x.author != q.excludeAuthor)
    && (q.since.Some? ==> x.at >= q.since.value)
    && (q.until.Some? ==> x.at <= q.until.value)
  }

  predicate InScope(t: Ticket, id: Id, phasesBySlug: map<string, Id>, q: CommentQuery) {
    && (q.ticket != "" ==> id == q.ticket)
    && PhaseMatches(t.phase, if q.phase == "" then None else Some(q.phase), phasesBySlug)
  }

  predicate CommentLess(descending: bool, a: ScopedComment, b: ScopedComment) {
    if a.comment.at != b.comment.at then
      if descending then a.comment.at > b.comment.at else a.comment.at < b.comment.at
    else if descending then Ordering.StrLess(b.comment.id, a.comment.id)
    else Ordering.StrLess(a.comment.id, b.comment.id)
  }

  function OrderOf(descending: bool): (ScopedComment, ScopedComment) -> bool {
    (a, b) => CommentLess(descending, a, b)
  }

  ghost predicate DistinctComments(s: seq<ScopedComment>) {
    forall i, j :: 0 <= i < j < |s| ==> s[i].comment.id != s[j].comment.id
  }

  lemma CommentLessTransitive(descending: bool, a: ScopedComment, b: ScopedComment, c: ScopedComment)
    requires CommentLess(descending, a, b) && CommentLess(descending, b, c)
    ensures CommentLess(descending, a, c)
  {
    if a.comment.at == b.comment.at == c.comment.at {
      if descending {
        Ordering.StrTransitive(c.comment.id, b.comment.id, a.comment.id);
      } else {
        Ordering.StrTransitive(a.comment.id, b.comment.id, c.comment.id);
      }
    }
  }

  lemma CommentOrder(descending: bool, s: seq<ScopedComment>)
    requires DistinctComments(s)
    ensures Ordering.StrictTotal(OrderOf(descending), s) && Ordering.NoDup(s)
  {
    var less := OrderOf(descending);
    forall x, y, z | less(x, y) && less(y, z) ensures less(x, z) {
      CommentLessTransitive(descending, x, y, z);
    }
    forall x: ScopedComment ensures !less(x, x) {
      Ordering.StrIrreflexive(x.comment.id);
    }
    forall x, y | x in s && y in s ensures x == y || less(x, y) || less(y, x) {
      Ordering.StrTrichotomous(x.comment.id, y.comment.id);
    }
  }

  function Scoped(cs: seq<Comment>, title: string, q: CommentQuery, names: Id -> string): (r: seq<ScopedComment>)
    ensures forall x :: x in r <==> x.ticketTitle == title && x.comment in cs && CommentMatches(x.comment, q, names)
  {
    if cs == [] then []
    else
      var n := |cs| - 1;
      Scoped(cs[..n], title, q, names) + if CommentMatches(cs[n], q, names) then [ScopedComment(cs[n], title)] else []
  }

  lemma {:induction false} ScopedDistinct(cs: seq<Comment>, title: string, q: CommentQuery, names: Id -> string)
    requires forall i, j :: 0 <= i < j < |cs| ==> cs[i].id != cs[j].id
    ensures DistinctComments(Scoped(cs, title, q, names))
  {
    if cs != [] {
      var n := |cs| - 1;
      ScopedDistinct(cs[..n], title, q, names);
      var before := Scoped(cs[..n], title, q, names);
      forall i | 0 <= i < |before| ensures before[i].comment.id != cs[n].id {
        assert before[i] in before && before[i].comment in cs[..n];
      }
    }
  }

  /** A comment of a ticket in scope that passes the filter, labelled with the ticket's title. */
  ghost predicate Belongs(x: ScopedComment, tid: Id, tickets: map<Id, Ticket>, comments: map<Id, seq<Comment>>,
                          phasesBySlug: map<string, Id>, q: CommentQuery, names: Id -> string)
  {
    tid in tickets && tid in comments && InScope(tickets[tid], tid, phasesBySlug, q)
    && x in Scoped(comments[tid], tickets[tid].title, q, names)
  }

  ghost predicate IsCommentListing(full: seq<ScopedComment>, tickets: map<Id, Ticket>, comments: map<Id, seq<Comment>>,
                                   phasesBySlug: map<string, Id>, q: CommentQuery, names: Id -> string)
  {
    && Ordering.Sorted(full, OrderOf(q.descending)) && DistinctComments(full)
    && forall x :: x in full <==> exists tid :: Belongs(x, tid, tickets, comments, phasesBySlug, q, names)
  }

  function CommentKey(x: ScopedComment): (Time, Id) {
    (x.comment.at, x.comment.id)
  }

  method CollectOne(cs: seq<Comment>, title: string, q: CommentQuery,
                    names: Id -> string) returns (out: seq<ScopedComment>)
    ensures out == Scoped(cs, title, q, names)
  {
    out := [];
    for i := 0 to |cs|
      invariant out == Scoped(cs[..i], title, q, names)
    {
      assert cs[..i + 1][..i] == cs[..i];
      if !CommentMatches(cs[i], q, names) {
        continue;
      }
      out := out + [ScopedComment(cs[i], title)];
    }
    assert cs[..|cs|] == cs;
  }

  lemma JoinDistinct(a: seq<ScopedComment>, b: seq<ScopedComment>)
    requires DistinctComments(a) && DistinctComments(b)
    requires forall x, y :: x in a && y in b ==> x.comment.id != y.comment.id
    ensures DistinctComments(a + b)
  {
  }

  /** Every comment in scope, in no particular order. */
  method Collect(tickets: map<Id, Ticket>, comments: map<Id, seq<Comment>>, phasesBySlug: map<string, Id>,
                 q: CommentQuery, names: Id -> string)
    returns (out: seq<ScopedComment>)
    requires comments.Keys == tickets.Keys && BoardLaws.CommentIdsSound(comments)
    ensures DistinctComments(out)
    ensures forall x :: x in out <==> exists tid :: Belongs(x, tid, tickets, comments, phasesBySlug, q, names)
  {
    hide InScope, Scoped, DistinctComments;
    out := [];
    var rest := tickets.Keys;
    NothingCollected(tickets, comments, phasesBySlug, q, names);
    while rest != {}
      invariant rest <= tickets.Keys && DistinctComments(out)
      invariant CollectedSoFar(out, rest, tickets, comments, phasesBySlug, q, names)
      decreases |rest|
    {
      hide CollectedSoFar;
      var tid :| tid in rest;
      var more: seq<ScopedComment> := [];
      if InScope(tickets[tid], tid, phasesBySlug, q) {
        more := CollectOne(comments[tid], tickets[tid].title, q, names);
      }
      CollectTicket(out, rest, more, tickets, comments, phasesBySlug, q, names, tid);
      out := out + more;
      rest := rest - {tid};
    }
  }

  /** out lists what the tickets no longer waiting contribute. */
  ghost predicate CollectedSoFar(out: seq<ScopedComment>, rest: set<Id>, tickets: map<Id, Ticket>,
                                 comments: map<Id, seq<Comment>>, phasesBySlug: map<string, Id>, q: CommentQuery,
                                 names: Id -> string)
  {
    forall x :: x in out <==> exists tid :: tid !in rest && Belongs(x, tid, tickets, comments, phasesBySlug, q, names)
  }

  lemma NothingCollected(tickets: map<Id, Ticket>, comments: map<Id, seq<Comment>>, phasesBySlug: map<string, Id>,
                         q: CommentQuery, names: Id -> string)
    ensures CollectedSoFar([], tickets.Keys, tickets, comments, phasesBySlug, q, names) && DistinctComments([])
  {
    hide InScope, Scoped;
  }

  lemma CollectTicket(out: seq<ScopedComment>, rest: set<Id>, more: seq<ScopedComment>, tickets: map<Id, Ticket>,
                      comments: map<Id, seq<Comment>>, phasesBySlug: map<string, Id>, q: CommentQuery,
                      names: Id -> string, tid: Id)
    requires comments.Keys == tickets.Keys && BoardLaws.CommentIdsSound(comments) && DistinctComments(out)
    requires CollectedSoFar(out, rest, tickets, comments, phasesBySlug, q, names) && tid in rest && tid in tickets
    requires more == if !InScope(tickets[tid], tid, phasesBySlug, q) then []
                     else Scoped(comments[tid], tickets[tid].title, q, names)
    ensures DistinctComments(out + more)
    ensures CollectedSoFar(out + more, rest - {tid}, tickets, comments, phasesBySlug, q, names)
  {
    hide InScope, Scoped, Text.Blank, CommentMatches;
    ScopedDistinct(comments[tid], tickets[tid].title, q, names);
    forall x, y | x in out && y in more ensures x.comment.id != y.comment.id {
      var u :| u !in rest && Belongs(x, u, tickets, comments, phasesBySlug, q, names);
      assert x.comment in comments[u] && y.comment in comments[tid];
    }
    hide BoardLaws.CommentIdsSound;
    JoinDistinct(out, more);
    JoinCollected(out, rest, more, tickets, comments, phasesBySlug, q, names, tid);
  }

  lemma JoinCollected(out: seq<ScopedComment>, rest: set<Id>, more: seq<ScopedComment>, tickets: map<Id, Ticket>,
                      comments: map<Id, seq<Comment>>, phasesBySlug: map<string, Id>, q: CommentQuery,
                      names: Id -> string, tid: Id)
    requires CollectedSoFar(out, rest, tickets, comments, phasesBySlug, q, names) && tid in rest
    requires forall x :: x in more <==> Belongs(x, tid, tickets, comments, phasesBySlug, q, names)
    ensures CollectedSoFar(out + more, rest - {tid}, tickets, comments, phasesBySlug, q, names)
  {
    hide Belongs;
  }

  method ListCommentsScoped(c: Codec, tickets: map<Id, Ticket>, comments: map<Id, seq<Comment>>,
                            phasesBySlug: map<string, Id>, q: CommentQuery, names: Id -> string,
                            cursor: string, limit: int)
    returns (res: Result<(seq<ScopedComment>, string)>)
    requires comments.Keys == tickets.Keys && BoardLaws.CommentIdsSound(comments)
    ensures
      if cursor != "" && DecodeCursor(c, cursor).Err? then res == Err(InvalidArgument)
      else if q.ticket != "" && q.ticket !in tickets then res == Err(NotFound)
      else exists full ::
        IsCommentListing(full, tickets, comments, phasesBySlug, q, names)
        && res == Page(c, full, CommentKey, cursor, Cursor.ClampLimit(limit))
  {
    hide CommentLess, Belongs, DecodeCursor;
    if cursor != "" {
      var decoded := DecodeCursor(c, cursor);
      if decoded.Err? {
        return Err(InvalidArgument);
      }
    }
    if q.ticket != "" {
      if q.ticket !in tickets {
        return Err(NotFound);
      }
    }
    var out := Collect(tickets, comments, phasesBySlug, q, names);
    CommentOrder(q.descending, out);
    Ordering.SortIsSorted(out, OrderOf(q.descending));
    SortKeepsDistinct(out, OrderOf(q.descending));
    var sorted := Ordering.Sort(out, OrderOf(q.descending));
    assert IsCommentListing(sorted, tickets, comments, phasesBySlug, q, names);
    res := TakePage(c, sorted, CommentKey, cursor, Cursor.ClampLimit(limit));
  }

  /** As for tickets, the list behind a query is determined. */
  lemma CommentListingUnique(s: seq<ScopedComment>, t: seq<ScopedComment>, tickets: map<Id, Ticket>,
                             comments: map<Id, seq<Comment>>, phasesBySlug: map<string, Id>, q: CommentQuery,
                             names: Id -> string)
    requires IsCommentListing(s, tickets, comments, phasesBySlug, q, names)
    requires IsCommentListing(t, tickets, comments, phasesBySlug, q, names)
    ensures s == t
  {
    hide Belongs, CommentLess;
    CommentOrder(q.descending, s);
    CommentOrder(q.descending, t);
    Ordering.NoDupSize(s);
    Ordering.NoDupSize(t);
    assert (set x | x in s) == (set x | x in t);
    Ordering.SortedUnique(s, t, OrderOf(q.descending));
  }

  lemma SortKeepsDistinct(s: seq<ScopedComment>, less: (ScopedComment, ScopedComment) -> bool)
    requires DistinctComments(s) && Ordering.StrictTotal(less, s) && Ordering.NoDup(s)
    ensures DistinctComments(Ordering.Sort(s, less))
  {
    var t := Ordering.Sort(s, less);
    Ordering.SortIsSorted(s, less);
    Ordering.SortedNoDup(t, less);
    forall i, j | 0 <= i < j < |t| ensures t[i].comment.id != t[j].comment.id {
      assert t[i] in s && t[j] in s;
    }
  }

  /** Which comments a query asks for. */
  lemma CommentMatchesMeans(x: Comment, q: CommentQuery, names: Id -> string)
    ensures CommentMatches(x, q, names) <==>
      && (x.kind != User ==> !q.excludeSystem) && (q.kinds == [] || exists k :: k in q.kinds && k == x.kind)
      && (q.author == "" || q.author == x.author) && (q.authorName == "" || q.authorName == names(x.id))
      && (q.excludeAuthor == "" || q.excludeAuthor != x.author)
      && (q.since == None || q.since.value <= x.at) && (q.until == None || x.at <= q.until.value)
  {
  }

  lemma InScopeMeans(t: Ticket, id: Id, phasesBySlug: map<string, Id>, q: CommentQuery)
    ensures InScope(t, id, phasesBySlug, q) <==>
      && (q.ticket == "" || q.ticket == id)
      && (q.phase == "-" ==> t.phase == None)
      && (q.phase != "" && q.phase != "-" ==>
            t.phase == Some(q.phase)
            || (q.phase in phasesBySlug && t.phase == Some(phasesBySlug[q.phase])))
  {
  }

  /** Oldest first, or newest first when descending; ids break ties the same way round. */
  lemma CommentsInOrder(full: seq<ScopedComment>, tickets: map<Id, Ticket>, comments: map<Id, seq<Comment>>,
                        phasesBySlug: map<string, Id>, q: CommentQuery, names: Id -> string, i: nat, j: nat)
    requires IsCommentListing(full, tickets, comments, phasesBySlug, q, names) && i < j < |full|
    ensures
      var x, y := full[i].comment, full[j].comment;
      && (!q.descending ==> x.at < y.at || (x.at == y.at && Ordering.StrLess(x.id, y.id)))
      && (q.descending ==> x.at > y.at || (x.at == y.at && Ordering.StrLess(y.id, x.id)))
  {
    hide Belongs;
    assert OrderOf(q.descending)(full[i], full[j]);
  }

  /** The same partition for comments, in either order. */
  lemma CommentPagesPartition(c: Codec, full: seq<ScopedComment>, tickets: map<Id, Ticket>,
                              comments: map<Id, seq<Comment>>, phasesBySlug: map<string, Id>, q: CommentQuery,
                              names: Id -> string, limit: int, pages: seq<seq<ScopedComment>>, cursors: seq<string>)
    requires Faithful(c) && IsCommentListing(full, tickets, comments, phasesBySlug, q, names)
    requires BoardLaws.CommentIdsSound(comments)
    requires forall t, x :: t in comments && x in comments[t] ==> Representable(x.at)
    requires IsWalk(c, full, CommentKey, Cursor.ClampLimit(limit), pages, cursors)
    ensures Flatten(pages) == full
  {
    BoardLaws.BlankIsEmpty();
    hide Text.Blank, Page, DecodeCursor, IsWalk, Flatten, CommentLess;
    forall x | x in full ensures Representable(CommentKey(x).0) && CommentKey(x).1 != "" {
      var tid :| Belongs(x, tid, tickets, comments, phasesBySlug, q, names);
      assert x.comment in comments[tid];
    }
    WalkIsWhole(c, full, CommentKey, Cursor.ClampLimit(limit), pages, cursors);
  }

  /** Every board of a run has what listing its comments needs. */
  lemma RunCanListComments(boards: seq<Board>, actions: seq<Action>, calls: seq<Call>, i: nat)
    requires IsRun(boards, actions, calls) && i < |boards|
    ensures boards[i].comments.Keys == boards[i].tickets.Keys && BoardLaws.CommentIdsSound(boards[i].comments)
  {
    hide IsRun, BoardLaws.CommentIdsSound, BoardLaws.Inv;
    BoardLaws.RunKeepsInv(boards, actions, calls, i);
    BoardLaws.InvKeyed(boards[i]);
    BoardLaws.RunKeepsCommentIds(boards, actions, calls, i);
  }

  /** And so has every loaded project, between any two of its calls; its tickets are in order to be listed. */
  lemma ProjectCanList(p: ProjectService.Project)
    requires p.Valid()
    ensures p.comments.Keys == p.tickets.Keys && BoardLaws.CommentIdsSound(p.comments)
    ensures forall id :: id in p.tickets ==> p.tickets[id].id == id
    ensures forall s :: s in p.phasesBySlug ==> p.phasesBySlug[s] in p.phases && p.phases[p.phasesBySlug[s]].slug == s
  {
    hide BoardLaws.CommentIdsSound, BoardLaws.Inv, TicketTree.TicketsPlaced, TicketTree.PhasesPlaced;
    BoardLaws.InvKeyed(p.Abs());
  }
}
