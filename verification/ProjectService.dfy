/** The loaded project: the cached maps and the directory tree beneath them, changed together by each
    service call. Every method follows the code's order of work (check the cache, find the directory on
    disk, rewrite the record read there, commit, then update the cache) and is proved to perform exactly
    the board's transition, to leave the tree coherent with the cache, and to touch nothing on error. */
module ProjectService {
  import opened Common
  import opened Text
  import opened Board
  import opened BoardCalls
  import opened BoardLaws
  import opened AuditTrail
  import opened CompletionText
  import opened TicketTree
  import Graph
  import Ordering

  /** phasesBySlug names exactly the phases, by slug. */
  ghost predicate SlugIndex(phases: map<Id, Phase>, bySlug: map<string, Id>) {
    && (forall s :: s in bySlug ==> bySlug[s] in phases && phases[bySlug[s]].slug == s)
    && (forall p :: p in phases ==> phases[p].slug in bySlug && bySlug[phases[p].slug] == p)
  }

  /** No comment is newer than the clock. */
  ghost predicate Recent(comments: map<Id, seq<Comment>>, clock: nat) {
    forall id :: id in comments ==> forall c :: c in comments[id] ==> c.at <= clock
  }

  ghost predicate Sound(b: Board, bySlug: map<string, Id>, tree: Tree, where: map<Id, DirPath>, clock: nat) {
    && Inv(b) && Coherent(b, tree, where) && SlugIndex(b.phases, bySlug)
    && Recent(b.comments, clock) && CommentIdsSound(b.comments)
  }

  /** The uuid of a new comment: not blank, and no comment of the project has it. */
  ghost predicate Mints(comments: map<Id, seq<Comment>>, id: Id) {
    !Blank(id) && NewCommentId(comments, id)
  }

  /** Later calls bring later times and other uuids. */
  ghost predicate CallsInOrder(comments: map<Id, seq<Comment>>, clock: nat, calls: seq<Call>) {
    && (forall i :: 0 <= i < |calls| ==> calls[i].now > clock && Mints(comments, calls[i].newId))
    && (forall i, j :: 0 <= i < j < |calls| ==> calls[i].now < calls[j].now && calls[i].newId != calls[j].newId)
  }

  /** What a call leaves behind: the next board, or the old one on error. */
  ghost function Settled(b: Board, r: Result<Board>): Board {
    match r case Ok(next) => next case Err(_) => b
  }

  ghost function Outcome(r: Result<Board>): Option<Error> {
    match r case Ok(_) => None case Err(e) => Some(e)
  }

  // ----- The accumulating loops -----

  method ComputeBlockedBy(deps: seq<Id>, tickets: map<Id, Ticket>) returns (out: seq<Id>)
    ensures out == BlockedBy(tickets, deps)
  {
    out := [];
    for i := 0 to |deps|
      invariant out == BlockedBy(tickets, deps[..i])
    {
      assert deps[..i + 1][..i] == deps[..i];
      if deps[i] !in tickets || tickets[deps[i]].column != Done {
        out := out + [deps[i]];
      }
    }
    assert deps[..|deps|] == deps;
  }

  method RemoveIdLoop(ids: seq<Id>, target: Id) returns (out: seq<Id>)
    ensures out == RemoveId(ids, target)
  {
    out := [];
    for i := 0 to |ids|
      invariant out == RemoveId(ids[..i], target)
    {
      assert ids[..i + 1][..i] == ids[..i];
      if ids[i] != target {
        out := out + [ids[i]];
      }
    }
    assert ids[..|ids|] == ids;
  }

  method CompactTicketRefs(refs: seq<string>) returns (out: seq<Id>)
    ensures out == CompactRefs(refs)
  {
    out := [];
    for i := 0 to |refs|
      invariant out == CompactRefs(refs[..i])
    {
      assert refs[..i + 1][..i] == refs[..i];
      if !Blank(refs[i]) {
        out := out + [TrimSpace(refs[i])];
      }
    }
    assert refs[..|refs|] == refs;
  }

  method ValidateTicketRefs(tickets: map<Id, Ticket>, id: Id, refs: seq<string>) returns (ok: bool)
    ensures ok <==> id !in CompactRefs(refs) && AllWork(tickets, CompactRefs(refs))
  {
    for i := 0 to |refs|
      invariant id !in CompactRefs(refs[..i]) && AllWork(tickets, CompactRefs(refs[..i]))
    {
      assert refs[..i + 1][..i] == refs[..i];
      if !Blank(refs[i]) {
        var ref := TrimSpace(refs[i]);
        if ref == id || ref !in tickets || tickets[ref].kind == Idea {
          CompactContains(refs, i);
          return false;
        }
      }
    }
    assert refs[..|refs|] == refs;
    ok := true;
  }

  lemma {:induction false} CompactContains(refs: seq<string>, i: nat)
    requires i < |refs| && !Blank(refs[i])
    ensures TrimSpace(refs[i]) in CompactRefs(refs)
  {
    hide TrimSpace;
    if i < |refs| - 1 {
      CompactContains(refs[..|refs| - 1], i);
    }
  }

  method AllWorkLoop(tickets: map<Id, Ticket>, ids: seq<Id>) returns (ok: bool)
    ensures ok <==> AllWork(tickets, ids)
  {
    for i := 0 to |ids|
      invariant forall k :: 0 <= k < i ==> IsWork(tickets, ids[k])
    {
      if ids[i] !in tickets || tickets[ids[i]].kind == Idea {
        assert ids[i] in ids && !IsWork(tickets, ids[i]);
        return false;
      }
    }
    ok := true;
  }

  class Project {
    var tickets: map<Id, Ticket>
    var comments: map<Id, seq<Comment>>
    var phases: map<Id, Phase>
    /** The second map onto the same phase records, here by id. */
    var phasesBySlug: map<string, Id>
    var tree: Tree
    ghost var where: map<Id, DirPath>
    ghost var clock: nat

    ghost function Abs(): Board
      reads this
    {
      Board(tickets, comments, phases)
    }

    ghost predicate Valid()
      reads this
    {
      Sound(Abs(), phasesBySlug, tree, where, clock)
    }

    constructor ()
      ensures Valid() && Abs() == EMPTY_BOARD && tree == EMPTY_TREE
    {
      tickets, comments, phases, phasesBySlug, tree := map[], map[], map[], map[], EMPTY_TREE;
      where, clock := map[], 0;
      new;
      EmptyInv();
    }

    // ----- Lookups -----

    method LookupPhase(ref: string) returns (r: Option<Phase>)
      requires Valid()
      ensures r == ResolvePhase(phases, ref)
      ensures r.Some? ==> r.value.id in phases && phases[r.value.id] == r.value
    {
      hide Coherent, EdgesLive, TrailsExplain, Graph.Acyclic, CommentIdsSound;
      if ref in phases {
        return Some(phases[ref]);
      }
      if ref in phasesBySlug {
        return Some(phases[phasesBySlug[ref]]);
      }
      return None;
    }

    /** findTicketDir: walk every ticket directory and keep the one whose record has the id. */
    method FindTicketDir(id: Id) returns (r: Option<DirPath>)
      requires Valid()
      ensures id in tickets ==> id in where && r == Some(where[id])
      ensures id !in tickets ==> r == None
    {
      hide Inv, Housed, NumbersDiffer, PhasesPlaced, CommentIdsSound;
      r := None;
      var todo := tree.tickets.Keys;
      while todo != {}
        invariant todo <= tree.tickets.Keys
        invariant r.Some? ==> r.value in tree.tickets && tree.tickets[r.value].rec.fields.id == id
        invariant r.None? ==> forall p :: p in tree.tickets && p !in todo ==> tree.tickets[p].rec.fields.id != id
        decreases |todo|
      {
        var p :| p in todo;
        if tree.tickets[p].rec.fields.id == id {
          r := Some(p);
        }
        todo := todo - {p};
      }
      if id in tickets {
        assert Housed(Abs(), tree.tickets, where, id);
        HomeOf(Abs(), tree, where, id);
      }
    }

    /** nextTicketNumber: one more than the largest number on disk. */
    method NextTicketNumber() returns (number: nat)
      ensures forall p :: p in tree.tickets ==> tree.tickets[p].rec.number < number
      ensures number == 1 || exists p :: p in tree.tickets && tree.tickets[p].rec.number == number - 1
    {
      var max := 0;
      var todo := tree.tickets.Keys;
      while todo != {}
        invariant todo <= tree.tickets.Keys
        invariant forall p :: p in tree.tickets && p !in todo ==> tree.tickets[p].rec.number <= max
        invariant max == 0 || exists p :: p in tree.tickets && tree.tickets[p].rec.number == max
        decreases |todo|
      {
        var p :| p in todo;
        if tree.tickets[p].rec.number > max {
          max := tree.tickets[p].rec.number;
        }
        todo := todo - {p};
      }
      number := max + 1;
    }

    /** uniqueTicketDirName for a number past every other: the plain name is never taken, so neither the
        -2, -3, … suffixes nor the failure after them is ever reached. */
    method UniqueTicketDirName(number: nat, title: string) returns (base: string)
      requires Valid() && forall p :: p in tree.tickets ==> tree.tickets[p].rec.number < number
      ensures base == NumberedName(number, MakeSlug(title))
      ensures forall p :: p in tree.tickets ==> p.base != base
    {
      hide Pad3, MakeSlug, Inv, TicketsPlaced, PhasesPlaced, CommentIdsSound;
      var taken := set p | p in tree.tickets :: p.base;
      base := NumberedName(number, MakeSlug(title));
      forall p | p in tree.tickets ensures p.base != base {
        FreshNumberFreshBase(Abs(), tree, where, number, MakeSlug(title), p);
      }
      assert base !in taken;
    }

    // ----- Committing one ticket -----

    /** The shared tail of move, complete, archive, promote and comment: stage ticket.yaml, possibly
        completion.md, and the comment file; commit; then update the cached ticket and trail. */
    method CommitTicket(p: DirPath, rec: TicketRec, md: Option<string>, t: Ticket, entry: Comment)
      requires Valid() && RewriteAllowed(Abs(), t, entry) && t.id in tickets && t.phase == tickets[t.id].phase
      requires t.id in where && p == where[t.id] && p in tree.tickets
      requires rec.number == tree.tickets[p].rec.number && rec.fields == YamlOf(t)
      requires md == if t.completion == tickets[t.id].completion then None
                     else if t.completion.Some? then Some(RenderCompletion(t.completion.value.sections)) else None
      requires entry.at > clock && Mints(comments, entry.id)
      modifies this
      ensures Valid() && Abs() == RewriteWithComment(old(Abs()), t, entry) && clock == entry.at
    {
      hide Sound, RewriteAllowed, RenderCompletion, Mints;
      var dir := tree.tickets[p];
      var dir' := WithComment(TicketDir(rec, if md.Some? then md.value else dir.completionMd, dir.comments), entry);
      SoundHome(Abs(), phasesBySlug, tree, where, clock, t.id);
      CommitSound(Abs(), phasesBySlug, tree, where, clock, t, entry, dir');
      tree := WriteDir(tree, p, dir');
      tickets := tickets[t.id := t];
      comments := comments[t.id := comments[t.id] + [entry]];
      clock := entry.at;
    }

    // ----- The calls that rewrite one ticket and add to its trail -----

    method MoveTicket(id: Id, target: Column, comment: string, enforce: bool, c: Call) returns (err: Option<Error>)
      requires Valid() && c.now > clock && Mints(comments, c.newId)
      modifies this
      ensures Valid()
      ensures Abs() == Settled(old(Abs()), Move(old(Abs()), id, target, comment, enforce, c))
      ensures err == Outcome(Move(old(Abs()), id, target, comment, enforce, c))
      ensures err.Some? ==> tree == old(tree)
      ensures GatedMove(old(tickets), tickets, id, target, comment, enforce, err)
    {
      hide Sound, Mints, Blank, BlockedBy, RewriteAllowed, RewriteWithComment, WellKeyed, RenderCompletion, GatedMove;
      SoundKeyed(Abs(), phasesBySlug, tree, where, clock);
      MoveGate(Abs(), id, target, comment, enforce, c);
      if Blank(id) || target == Done || Blank(comment) {
        return Some(InvalidArgument);
      }
      if id !in tickets {
        return Some(NotFound);
      }
      var t := tickets[id];
      SoundHome(Abs(), phasesBySlug, tree, where, clock, id);
      if t.column == Done {
        return Some(FailedPrecondition);
      }
      if t.kind == Idea && target != Todo {
        return Some(FailedPrecondition);
      }
      if target == InProgress {
        var blocked := ComputeBlockedBy(t.dependsOn, tickets);
        if blocked != [] && enforce {
          return Some(FailedPrecondition);
        }
      }
      CommitMove(t, target, c);
      return None;
    }

    /** The record is read from disk; its column is the one the entry names as the old column. */
    method CommitMove(t: Ticket, target: Column, c: Call)
      requires Valid() && c.now > clock && Mints(comments, c.newId)
      requires t.id in tickets && tickets[t.id] == t && t.id in comments
      requires t.column != Done && target != Done && (t.kind == Idea ==> target == Todo)
      modifies this
      ensures Valid()
      ensures Abs() == RewriteWithComment(old(Abs()), t.(column := target),
                         Comment(c.newId, SystemMove, Some(t.column), Some(target), c.agent, c.now))
    {
      hide Sound, Mints, RewriteAllowed, RewriteWithComment, WellKeyed, RenderCompletion, Blank;
      SoundHome(Abs(), phasesBySlug, tree, where, clock, t.id);
      var p := FindTicketDir(t.id);
      var rec := tree.tickets[p.value].rec;
      var oldColumn := rec.fields.column;
      MoveAllowed(Abs(), t, target, c);
      CommitTicket(p.value, rec.(fields := rec.fields.(column := target)), None, t.(column := target),
                   Comment(c.newId, SystemMove, Some(oldColumn), Some(target), c.agent, c.now));
    }

    method CompleteTicket(id: Id, testing: string, work: string, learnings: string, c: Call)
      returns (err: Option<Error>)
      requires Valid() && c.now > clock && Mints(comments, c.newId)
      modifies this
      ensures Valid()
      ensures Abs() == Settled(old(Abs()), Complete(old(Abs()), id, testing, work, learnings, c))
      ensures err == Outcome(Complete(old(Abs()), id, testing, work, learnings, c))
      ensures err.Some? ==> tree == old(tree)
    {
      hide Sound, Mints, Blank, TrimSpace, Utf8Len, RenderCompletion, RewriteWithComment, WellKeyed;
      SoundKeyed(Abs(), phasesBySlug, tree, where, clock);
      if Blank(id) || Utf8Len(TrimSpace(learnings)) < LEARNINGS_MIN {
        return Some(InvalidArgument);
      }
      if id !in tickets {
        return Some(NotFound);
      }
      var t := tickets[id];
      SoundHome(Abs(), phasesBySlug, tree, where, clock, id);
      if t.kind == Idea || t.column == Done {
        return Some(FailedPrecondition);
      }
      var p := FindTicketDir(id);
      var sections := Sections(TrimSpace(testing), TrimSpace(work), TrimSpace(learnings));
      var rec := tree.tickets[p.value].rec;
      var stamped := rec.fields.(column := Done, completion := Some(Completion(c.now, c.agent, NO_TEXTS)));
      TrimSpaceTrims(testing);
      TrimSpaceTrims(work);
      TrimSpaceTrims(learnings);
      CommitTicket(p.value, rec.(fields := stamped), Some(RenderCompletion(sections)),
                   t.(column := Done, completion := Some(Completion(c.now, c.agent, sections))),
                   Entry(c, SystemCompletion));
      return None;
    }

    method FlipArchiveTicket(id: Id, comment: string, want: bool, c: Call) returns (err: Option<Error>)
      requires Valid() && c.now > clock && Mints(comments, c.newId)
      modifies this
      ensures Valid()
      ensures Abs() == Settled(old(Abs()), FlipArchive(old(Abs()), id, comment, want, c))
      ensures err == Outcome(FlipArchive(old(Abs()), id, comment, want, c))
      ensures err.Some? ==> tree == old(tree) && clock == old(clock)
      ensures clock <= c.now
    {
      hide Sound, Mints, Blank, RenderCompletion, RewriteWithComment, WellKeyed;
      SoundKeyed(Abs(), phasesBySlug, tree, where, clock);
      if Blank(id) || Blank(comment) {
        return Some(InvalidArgument);
      }
      if id !in tickets {
        return Some(NotFound);
      }
      var t := tickets[id];
      SoundHome(Abs(), phasesBySlug, tree, where, clock, id);
      if want && t.archived {
        return Some(FailedPrecondition);
      }
      if !want && !t.archived {
        return Some(FailedPrecondition);
      }
      var p := FindTicketDir(id);
      var rec := tree.tickets[p.value].rec;
      CommitTicket(p.value, rec.(fields := rec.fields.(archived := want)), None, t.(archived := want),
                   Entry(c, if want then SystemArchive else SystemUnarchive));
      return None;
    }

    /** flipIdeaToWork. */
    method PromoteTicket(id: Id, comment: string, c: Call) returns (err: Option<Error>)
      requires Valid() && c.now > clock && Mints(comments, c.newId)
      modifies this
      ensures Valid()
      ensures Abs() == Settled(old(Abs()), Promote(old(Abs()), id, comment, c))
      ensures err == Outcome(Promote(old(Abs()), id, comment, c))
      ensures err.Some? ==> tree == old(tree) && clock == old(clock)
      ensures clock <= c.now
    {
      hide Sound, Mints, Blank, RenderCompletion, RewriteWithComment, WellKeyed;
      SoundKeyed(Abs(), phasesBySlug, tree, where, clock);
      if Blank(id) || Blank(comment) {
        return Some(InvalidArgument);
      }
      if id !in tickets {
        return Some(NotFound);
      }
      var t := tickets[id];
      SoundHome(Abs(), phasesBySlug, tree, where, clock, id);
      if t.kind != Idea {
        return Some(FailedPrecondition);
      }
      var p := FindTicketDir(id);
      var rec := tree.tickets[p.value].rec;
      CommitTicket(p.value, rec.(fields := rec.fields.(kind := Work)), None, t.(kind := Work), Entry(c, SystemPromote));
      return None;
    }

    /** The phase's tickets, split by their archived flag; the active ones in id order. */
    method PhaseTickets(phase: Id) returns (active: seq<Id>, skipped: set<Id>)
      ensures forall id :: id in active <==> id in tickets && tickets[id].phase == Some(phase) && !tickets[id].archived
      ensures forall id :: id in skipped <==> id in tickets && tickets[id].phase == Some(phase) && tickets[id].archived
      ensures Ordering.Sorted(active, Ordering.StrLess)
    {
      active, skipped := [], {};
      var todo := tickets.Keys;
      while todo != {}
        invariant todo <= tickets.Keys && Ordering.NoDup(active)
        invariant forall id :: id in active <==>
          id in tickets && id !in todo && tickets[id].phase == Some(phase) && !tickets[id].archived
        invariant forall id :: id in skipped <==>
          id in tickets && id !in todo && tickets[id].phase == Some(phase) && tickets[id].archived
        decreases |todo|
      {
        var id :| id in todo;
        todo := todo - {id};
        if tickets[id].phase != Some(phase) {
          continue;
        }
        if tickets[id].archived {
          skipped := skipped + {id};
          continue;
        }
        active := active + [id];
      }
      Ordering.StrOrder(active);
      Ordering.SortIsSorted(active, Ordering.StrLess);
      active := Ordering.Sort(active, Ordering.StrLess);
    }

    /** ArchivePhase: one archive call for each active ticket of the phase. */
    method ArchivePhase(ref: string, comment: string, calls: seq<Call>)
      returns (err: Option<Error>, ghost swept: seq<Id>, archived: set<Id>, skipped: set<Id>)
      requires Valid() && |calls| >= |tickets| && CallsInOrder(comments, clock, calls)
      modifies this
      ensures Valid() && |swept| <= |calls| && WellKeyed(old(Abs()))
      ensures err == if Blank(comment) then Some(InvalidArgument)
                     else if ResolvePhase(old(phases), ref).None? then Some(NotFound) else None
      ensures err.Some? ==> swept == []
      ensures Abs() == Sweep(old(Abs()), swept, comment, calls)
      ensures err.None? ==>
        var phase := Some(ResolvePhase(old(phases), ref).value.id);
        && Ordering.Sorted(swept, Ordering.StrLess)
        && (forall id :: id in swept <==>
          id in old(tickets) && old(tickets)[id].phase == phase && !old(tickets)[id].archived)
        && archived == Elems(swept)
        && (forall id :: id in skipped <==>
          id in old(tickets) && old(tickets)[id].phase == phase && old(tickets)[id].archived)
    {
      hide Sound, Blank, ResolvePhase, Sweep, WellKeyed, CallsInOrder;
      SoundKeyed(Abs(), phasesBySlug, tree, where, clock);
      SweptNothing(Abs(), comment, calls);
      if Blank(comment) {
        return Some(InvalidArgument), [], {}, {};
      }
      var ph := LookupPhase(ref);
      if ph.None? {
        return Some(NotFound), [], {}, {};
      }
      err := None;
      swept, archived, skipped := SweepPhase(ph.value.id, comment, calls);
    }

    method SweepPhase(phase: Id, comment: string, calls: seq<Call>)
      returns (ghost swept: seq<Id>, archived: set<Id>, skipped: set<Id>)
      requires Valid() && |calls| >= |tickets| && !Blank(comment) && CallsInOrder(comments, clock, calls)
      modifies this
      ensures Valid() && |swept| <= |calls| && WellKeyed(old(Abs()))
      ensures Abs() == Sweep(old(Abs()), swept, comment, calls) && Ordering.Sorted(swept, Ordering.StrLess)
      ensures forall id :: id in swept <==>
        id in old(tickets) && old(tickets)[id].phase == Some(phase) && !old(tickets)[id].archived
      ensures archived == Elems(swept)
      ensures forall id :: id in skipped <==>
        id in old(tickets) && old(tickets)[id].phase == Some(phase) && old(tickets)[id].archived
    {
      hide Sound, Blank, Sweep, WellKeyed, AllActive, CallsInOrder;
      var active: seq<Id>;
      active, skipped := PhaseTickets(phase);
      KeysBound(active, tickets);
      SortedAreActive(Abs(), active);
      swept := active;
      var failed: set<Id>;
      archived, failed := ArchiveAll(active, comment, calls);
      skipped := skipped + failed;
    }

    /** One call of a sweep, on a ticket that is still active, leaves the later calls in order. */
    method ArchiveNext(id: Id, comment: string, calls: seq<Call>) returns (err: Option<Error>)
      requires Valid() && calls != [] && CallsInOrder(comments, clock, calls)
      requires WellKeyed(Abs()) && FlipArchive(Abs(), id, comment, true, calls[0]).Ok?
      modifies this
      ensures Valid() && err.None? && Abs() == FlipArchive(old(Abs()), id, comment, true, calls[0]).value
      ensures CallsInOrder(comments, clock, calls[1..])
    {
      hide Sound, Blank, FlipArchive, WellKeyed, NewCommentId;
      FlipMints(Abs(), id, comment, true, clock, calls);
      err := FlipArchiveTicket(id, comment, true, calls[0]);
    }

    /** Left alone, a sweep archives every ticket it set out to. */
    method ArchiveAll(active: seq<Id>, comment: string, calls: seq<Call>) returns (archived: set<Id>, failed: set<Id>)
      requires Valid() && |active| <= |calls| && AllActive(Abs(), active) && !Blank(comment)
      requires CallsInOrder(comments, clock, calls)
      modifies this
      ensures Valid() && WellKeyed(old(Abs())) && Abs() == Sweep(old(Abs()), active, comment, calls)
      ensures archived == Elems(active) && failed == {}
    {
      hide Sound, Blank, FlipArchive, AllActive, WellKeyed, CallsInOrder, Sweep;
      SoundKeyed(Abs(), phasesBySlug, tree, where, clock);
      SweptNothing(Abs(), comment, calls);
      archived, failed := {}, {};
      assert calls[0..] == calls;
      for i := 0 to |active|
        invariant Valid() && CallsInOrder(comments, clock, calls[i..])
        invariant Abs() == Sweep(old(Abs()), active[..i], comment, calls)
        invariant archived == Elems(active[..i]) && failed == {}
      {
        var id := active[i];
        assert active[..i + 1][..i] == active[..i] && active[..i + 1] == active[..i] + [id];
        assert Elems(active[..i + 1]) == Elems(active[..i]) + {id};
        assert calls[i..][0] == calls[i] && calls[i + 1..] == calls[i..][1..];
        NextIsActive(old(Abs()), old(phasesBySlug), old(tree), old(where), old(clock), active, i, comment, calls);
        SweepLast(old(Abs()), active[..i + 1], comment, calls, i);
        var e := ArchiveNext(id, comment, calls[i..]);
        if e.Some? {
          failed := failed + {id};
        } else {
          archived := archived + {id};
        }
      }
      assert active[..|active|] == active;
    }

    /** PromoteIdea. */
    method PromoteIdea(id: Id, comment: string, ref: Option<string>, flip: Call, move: Call)
      returns (err: Option<Error>)
      requires Valid() && CallsInOrder(comments, clock, [flip, move])
      modifies this
      ensures Valid()
      ensures (Abs(), err) == PromoteInto(old(Abs()), id, comment, ref, flip, move)
    {
      hide Sound, Blank, ResolvePhase, NewCommentId;
      SoundKeyed(Abs(), phasesBySlug, tree, where, clock);
      assert [flip, move][0] == flip && [flip, move][1] == move;
      PromoteMints(Abs(), id, comment, flip, move.newId);
      err := PromoteTicket(id, comment, flip);
      if err.Some? {
        return;
      }
      if ref.None? {
        return None;
      }
      var ph := LookupPhase(ref.value);
      if ph.None? {
        return Some(NotFound);
      }
      if tickets[id].phase == Some(ph.value.id) {
        return None;
      }
      err := AssignTicketToPhase(id, ref, comment, move);
    }

    method CreateComment(id: Id, body: string, c: Call) returns (err: Option<Error>)
      requires Valid() && c.now > clock && Mints(comments, c.newId)
      modifies this
      ensures Valid()
      ensures Abs() == Settled(old(Abs()), AddComment(old(Abs()), id, body, c))
      ensures err == Outcome(AddComment(old(Abs()), id, body, c))
      ensures err.Some? ==> tree == old(tree)
    {
      hide Sound, Mints, Blank, RenderCompletion, RewriteWithComment, WellKeyed;
      SoundKeyed(Abs(), phasesBySlug, tree, where, clock);
      if Blank(body) || Blank(id) {
        return Some(InvalidArgument);
      }
      if id !in tickets {
        return Some(NotFound);
      }
      SoundHome(Abs(), phasesBySlug, tree, where, clock, id);
      var p := FindTicketDir(id);
      CommitTicket(p.value, tree.tickets[p.value].rec, None, tickets[id], Entry(c, User));
      return None;
    }

    // ----- The other calls -----

    /** The commit of a phase reassignment: rename the directory under its new parent, rewrite its
        ticket.yaml and add the comment there; then update the cached ticket and trail. */
    method Relocate(p: DirPath, t: Ticket, parent: Option<string>, entry: Comment)
      requires Valid() && RewriteAllowed(Abs(), t, entry) && entry.at > clock && Mints(comments, entry.id)
      requires t.id in tickets && t == tickets[t.id].(phase := t.phase) && t.phase != tickets[t.id].phase
      requires t.phase.Some? ==> t.phase.value in phases
      requires parent == Parent(phases, t.phase)
      requires t.id in where && p == where[t.id]
      modifies this
      ensures Valid() && Abs() == RewriteWithComment(old(Abs()), t, entry)
    {
      hide Sound, Mints, Pad3, RewriteAllowed, Parent;
      SoundHome(Abs(), phasesBySlug, tree, where, clock, t.id);
      var target := DirPath(parent, p.base);
      var rec := tree.tickets[p].rec;
      var dir := WithComment(tree.tickets[p].(rec := rec.(fields := rec.fields.(phase := t.phase))), entry);
      ghost var _ := AssignSound(Abs(), phasesBySlug, tree, where, clock, t, entry, target, dir);
      // The target is vacant, so the rename never fails.
      var moved := RenameDir(tree, p, target).value;
      tree := WriteDir(moved, target, dir);
      tickets := tickets[t.id := t];
      comments := comments[t.id := comments[t.id] + [entry]];
      where, clock := where[t.id := target], entry.at;
    }

    /** AssignTicketToPhase: one commit renames the directory and rewrites the files at their new place. */
    method AssignTicketToPhase(id: Id, ref: Option<string>, comment: string, c: Call) returns (err: Option<Error>)
      requires Valid() && c.now > clock && Mints(comments, c.newId)
      modifies this
      ensures Valid()
      ensures Abs() == Settled(old(Abs()), Assign(old(Abs()), id, ref, comment, c))
      ensures err == Outcome(Assign(old(Abs()), id, ref, comment, c))
      ensures err.Some? ==> tree == old(tree)
    {
      hide Sound, Mints, Blank, Pad3, ResolvePhase, RewriteAllowed;
      SoundKeyed(Abs(), phasesBySlug, tree, where, clock);
      if Blank(id) || comment == "" {
        return Some(InvalidArgument);
      }
      if id !in tickets {
        return Some(NotFound);
      }
      var t := tickets[id];
      SoundHome(Abs(), phasesBySlug, tree, where, clock, id);
      var newPhase: Option<Id>, parent: Option<string> := None, None;
      if ref.Some? {
        var ph := LookupPhase(ref.value);
        if ph.None? {
          return Some(NotFound);
        }
        newPhase, parent := Some(ph.value.id), Some(PhaseDirName(ph.value));
      }
      if t.phase == newPhase {
        return Some(InvalidArgument);
      }
      var p := FindTicketDir(id);
      AssignAllowed(Abs(), t, newPhase, c);
      Relocate(p.value, t.(phase := newPhase), parent, Entry(c, SystemMove));
      return None;
    }

    /** The commit of a new ticket: its directory under the parent of its phase, then the cached maps. */
    method CommitNew(p: DirPath, number: nat, t: Ticket)
      requires Valid() && MayPut(Abs(), t, []) && t.id !in tickets && t.completion.None?
      requires p.phaseDir == Parent(phases, t.phase) && HasNumber(p.base, number)
      requires forall q :: q in tree.tickets ==> q != p && tree.tickets[q].rec.number < number
      modifies this
      ensures Valid() && Abs() == Put(old(Abs()), t, [])
    {
      hide Sound, MayPut, HasNumber, Parent;
      var dir := TicketDir(TicketRec(number, t), "", map[]);
      CreateSound(Abs(), phasesBySlug, tree, where, clock, t, p, dir);
      tree := WriteDir(tree, p, dir);
      tickets := tickets[t.id := t];
      comments := comments[t.id := []];
      where := where[t.id := p];
    }

    method CreateTicket(arg: CreateInput, c: Call) returns (err: Option<Error>)
      requires Valid() && !Blank(c.newId) && c.newId !in tickets
      modifies this
      ensures Valid()
      ensures Abs() == Settled(old(Abs()), Create(old(Abs()), arg, c))
      ensures err == Outcome(Create(old(Abs()), arg, c))
      ensures err.Some? ==> tree == old(tree)
      ensures err.None? ==>
        && c.newId in tickets && var t := tickets[c.newId];
        && t.title == TrimSpace(arg.title) && t.kind == arg.kind && t.wave == arg.wave
        && t.dependsOn == arg.dependsOn && t.parallelWith == arg.parallelWith
        && t.column == Todo && !t.archived && t.completion.None? && t.createdBy == c.agent && t.createdAt == c.now
        && (arg.phaseRef.None? ==> t.phase == None)
        && (arg.phaseRef.Some? ==> t.phase == Some(ResolvePhase(old(phases), arg.phaseRef.value).value.id))
        && comments[c.newId] == [] && phases == old(phases)
        && tickets - {c.newId} == old(tickets) && comments - {c.newId} == old(comments)
    {
      hide Sound, Blank, TrimSpace, Pad3, ResolvePhase, AllWork, MayPut;
      if Blank(arg.title) {
        return Some(InvalidArgument);
      }
      if arg.wave < 0 {
        return Some(InvalidArgument);
      }
      var phase: Option<Id>, parent: Option<string> := None, None;
      if arg.phaseRef.Some? {
        var ph := LookupPhase(arg.phaseRef.value);
        if ph.None? {
          return Some(NotFound);
        }
        phase, parent := Some(ph.value.id), Some(PhaseDirName(ph.value));
      }
      var depsOk := AllWorkLoop(tickets, arg.dependsOn);
      if !depsOk {
        return Some(InvalidArgument);
      }
      var parOk := AllWorkLoop(tickets, arg.parallelWith);
      if !parOk {
        return Some(InvalidArgument);
      }
      var number := NextTicketNumber();
      var title := TrimSpace(arg.title);
      var base := UniqueTicketDirName(number, title);
      var t := Ticket(c.newId, title, Todo, arg.kind, phase, arg.wave, arg.dependsOn, arg.parallelWith,
                      false, None, c.agent, c.now);
      SoundMayCreate(Abs(), phasesBySlug, tree, where, clock, t);
      SoundKeyed(Abs(), phasesBySlug, tree, where, clock);
      CommitNew(DirPath(parent, base), number, t);
      return None;
    }

    /** The commit of an edit: ticket.yaml rewritten in place, then the cached ticket. */
    method CommitEdit(p: DirPath, rec: TicketRec, t: Ticket)
      requires Valid() && t.id in tickets && t.id in comments && MayPut(Abs(), t, comments[t.id])
      requires t.phase == tickets[t.id].phase && t.completion == tickets[t.id].completion
      requires StatusOf(t) == StatusOf(tickets[t.id])
      requires t.id in where && p == where[t.id] && p in tree.tickets
      requires rec.number == tree.tickets[p].rec.number && rec.fields == YamlOf(t)
      modifies this
      ensures Valid() && Abs() == Rewrite(old(Abs()), t)
    {
      hide Sound, MayPut;
      var dir := tree.tickets[p].(rec := rec);
      EditSound(Abs(), phasesBySlug, tree, where, clock, t, dir);
      tree := WriteDir(tree, p, dir);
      tickets := tickets[t.id := t];
    }

    method UpdateTicket(id: Id, arg: UpdateInput) returns (err: Option<Error>)
      requires Valid()
      modifies this
      ensures Valid()
      ensures Abs() == Settled(old(Abs()), Update(old(Abs()), id, arg))
      ensures err == Outcome(Update(old(Abs()), id, arg))
      ensures err.Some? ==> tree == old(tree)
    {
      hide Sound, Blank, TrimSpace, CompactRefs, AllWork, MayPut, Graph.ReachesFromAny, RenderCompletion, Edges;
      if Blank(id) {
        return Some(InvalidArgument);
      }
      if arg.wave.Some? && arg.wave.value < 0 {
        return Some(InvalidArgument);
      }
      if id !in tickets {
        return Some(NotFound);
      }
      var t := tickets[id];
      SoundHome(Abs(), phasesBySlug, tree, where, clock, id);
      if arg.title.Some? && Blank(arg.title.value) {
        return Some(InvalidArgument);
      }
      var newTitle := if arg.title.Some? then TrimSpace(arg.title.value) else t.title;
      var newWave := if arg.wave.Some? then arg.wave.value else t.wave;
      var newDependsOn, newParallelWith := t.dependsOn, t.parallelWith;
      if arg.dependsOn.Some? {
        var ok := ValidateTicketRefs(tickets, id, arg.dependsOn.value);
        if !ok {
          return Some(InvalidArgument);
        }
        newDependsOn := CompactTicketRefs(arg.dependsOn.value);
        var cycle := Graph.DependencyUpdateCreatesCycle(Edges(tickets), id, newDependsOn);
        if cycle {
          return Some(InvalidArgument);
        }
      }
      if arg.parallelWith.Some? {
        var ok := ValidateTicketRefs(tickets, id, arg.parallelWith.value);
        if !ok {
          return Some(InvalidArgument);
        }
        newParallelWith := CompactTicketRefs(arg.parallelWith.value);
      }
      var t' := t.(title := newTitle, wave := newWave,
                   dependsOn := newDependsOn, parallelWith := newParallelWith);
      SoundMayEdit(Abs(), phasesBySlug, tree, where, clock, id, arg, t');
      CommitFields(t');
      return None;
    }

    /** The four editable fields of the record on disk and of the cached ticket. */
    method CommitFields(t: Ticket)
      requires Valid() && t.id in tickets && t.id in comments && MayPut(Abs(), t, comments[t.id])
      requires t == tickets[t.id].(title := t.title, wave := t.wave,
                                   dependsOn := t.dependsOn, parallelWith := t.parallelWith)
      modifies this
      ensures Valid() && Abs() == Rewrite(old(Abs()), t)
    {
      hide Sound, MayPut, RenderCompletion, Blank;
      SoundHome(Abs(), phasesBySlug, tree, where, clock, t.id);
      var p := FindTicketDir(t.id);
      var rec := tree.tickets[p.value].rec;
      var fields := rec.fields.(title := t.title, wave := t.wave,
                                dependsOn := t.dependsOn, parallelWith := t.parallelWith);
      CommitEdit(p.value, rec.(fields := fields), t);
    }

    /** One turn of the cascade loop: a ticket naming the doomed one is read from disk and rewritten
        without it; a ticket that does not name it is left alone. */
    method UnlinkOne(other: Id, id: Id) returns (p: DirPath, dir: TicketDir, t: Ticket)
      requires Valid() && other in tickets && other in where && where[other] in tree.tickets
      ensures p == where[other]
      ensures dir == UnlinkDir(tree.tickets[where[other]], id) && t == Unlink(tickets[other], id)
    {
      hide Sound, RemoveId;
      t := tickets[other];
      SoundHome(Abs(), phasesBySlug, tree, where, clock, other);
      var found := FindTicketDir(other);
      p := found.value;
      dir := tree.tickets[p];
      if id in t.dependsOn || id in t.parallelWith {
        var rec := dir.rec;
        var deps := RemoveIdLoop(rec.fields.dependsOn, id);
        var pars := RemoveIdLoop(rec.fields.parallelWith, id);
        dir := dir.(rec := rec.(fields := rec.fields.(dependsOn := deps, parallelWith := pars)));
        t := t.(dependsOn := deps, parallelWith := pars);
      } else {
        RemoveAbsent(t.dependsOn, id);
        RemoveAbsent(t.parallelWith, id);
      }
    }

    /** The cascade over every other ticket of the project. */
    method UnlinkDependents(id: Id) returns (dirs: map<DirPath, TicketDir>, cached: map<Id, Ticket>)
      requires Valid() && id in tickets && id in where
      ensures dirs - {where[id]} == CascadeDirs(tree.tickets, where[id], id)
      ensures cached - {id} == Cascade(tickets, id)
    {
      hide Sound, Unlink, UnlinkDir, Cascading, CascadingDirs;
      OwnersLive(Abs(), phasesBySlug, tree, where, clock, id);
      dirs, cached := tree.tickets, tickets;
      var todo := tickets.Keys - {id};
      CascadeStarts(tickets, tree.tickets, where[id], id);
      while todo != {}
        invariant todo <= tickets.Keys - {id}
        invariant Cascading(tickets, cached, id, todo)
        invariant CascadingDirs(tree.tickets, dirs, where[id], id, todo)
        decreases |todo|
      {
        var other :| other in todo;
        SoundHome(Abs(), phasesBySlug, tree, where, clock, other);
        OnlyHome(Abs(), phasesBySlug, tree, where, clock, other);
        var p, dir, t := UnlinkOne(other, id);
        CascadeAdvances(tickets, cached, id, todo, other);
        CascadeDirsAdvance(tree.tickets, dirs, where[id], id, todo, p);
        dirs := dirs[p := dir];
        cached := cached[other := t];
        todo := todo - {other};
      }
      CascadeEnds(tickets, cached, tree.tickets, dirs, where[id], id);
    }

    method DeleteTicket(id: Id) returns (err: Option<Error>)
      requires Valid()
      modifies this
      ensures Valid()
      ensures Abs() == Settled(old(Abs()), Delete(old(Abs()), id))
      ensures err == Outcome(Delete(old(Abs()), id))
      ensures err.Some? ==> tree == old(tree)
    {
      hide Sound, Blank, Unlink;
      if Blank(id) {
        return Some(InvalidArgument);
      }
      if id !in tickets {
        return Some(NotFound);
      }
      if tickets[id].column == Done {
        return Some(FailedPrecondition);
      }
      SoundHome(Abs(), phasesBySlug, tree, where, clock, id);
      var dirs, cached := UnlinkDependents(id);
      var p := FindTicketDir(id);
      DeleteSound(Abs(), phasesBySlug, tree, where, clock, id);
      tree := RemoveTicketDir(tree.(tickets := dirs), p.value);
      tickets := cached - {id};
      comments := comments - {id};
      where := where - {id};
      return None;
    }

    // ----- Phases -----

    method NextPhaseNumber() returns (number: nat)
      ensures NextNumber(phases, number)
    {
      var max := 0;
      var todo := phases.Keys;
      while todo != {}
        invariant todo <= phases.Keys
        invariant forall p :: p in phases && p !in todo ==> phases[p].number <= max
        invariant max == 0 || exists p :: p in phases && phases[p].number == max
        decreases |todo|
      {
        var p :| p in todo;
        if phases[p].number > max {
          max := phases[p].number;
        }
        todo := todo - {p};
      }
      number := max + 1;
    }

    method AddPhase(name: string, summary: string, c: Call) returns (err: Option<Error>, ghost number: nat)
      requires Valid() && c.newId !in phases
      modifies this
      ensures Valid() && NextNumber(old(phases), number)
      ensures Abs() == Settled(old(Abs()), CreatePhase(old(Abs()), name, summary, number, c))
      ensures err == Outcome(CreatePhase(old(Abs()), name, summary, number, c))
      ensures err.Some? ==> tree == old(tree)
    {
      hide Sound, Blank, TrimSpace, Utf8Len, MakeSlug, Pad3;
      SoundSlugs(Abs(), phasesBySlug, tree, where, clock);
      var next := NextPhaseNumber();
      number := next;
      if Blank(name) {
        return Some(InvalidArgument), number;
      }
      if Utf8Len(TrimSpace(summary)) < SUMMARY_MIN {
        return Some(InvalidArgument), number;
      }
      var slug := MakeSlug(TrimSpace(name));
      if slug in phasesBySlug {
        return Some(AlreadyExists), number;
      }
      var ph := Phase(c.newId, slug, next, TrimSpace(name));
      AddPhaseSound(Abs(), phasesBySlug, tree, where, clock, ph);
      tree := WritePhase(tree, ph);
      phases := phases[ph.id := ph];
      phasesBySlug := phasesBySlug[slug := ph.id];
      return None, number;
    }

    method EditPhase(ref: string, name: Option<string>, summary: Option<string>) returns (err: Option<Error>)
      requires Valid()
      modifies this
      ensures Valid()
      ensures Abs() == Settled(old(Abs()), UpdatePhase(old(Abs()), ref, name, summary))
      ensures err == Outcome(UpdatePhase(old(Abs()), ref, name, summary))
      ensures err.Some? ==> tree == old(tree)
    {
      hide Sound, Blank, TrimSpace, Utf8Len, Pad3, ResolvePhase;
      if Blank(ref) {
        return Some(InvalidArgument);
      }
      var found := LookupPhase(ref);
      if found.None? {
        return Some(NotFound);
      }
      if summary.Some? && Utf8Len(TrimSpace(summary.value)) < SUMMARY_MIN {
        return Some(InvalidArgument);
      }
      var ph := found.value;
      SoundPhase(Abs(), phasesBySlug, tree, where, clock, ph);
      var rec := tree.phases[PhaseDirName(ph)];
      if name.Some? {
        rec := rec.(name := TrimSpace(name.value));
      }
      EditPhaseSound(Abs(), phasesBySlug, tree, where, clock, rec);
      tree := WritePhase(tree, rec);
      phases := phases[ph.id := rec];
      return None;
    }

    /** How many tickets name the phase; the caller only asks whether any does. */
    method CountTickets(phase: Id) returns (count: nat)
      ensures count > 0 <==> exists id :: id in tickets && tickets[id].phase == Some(phase)
    {
      count := 0;
      var todo := tickets.Keys;
      while todo != {}
        invariant todo <= tickets.Keys
        invariant count > 0 <==> exists id :: id in tickets && id !in todo && tickets[id].phase == Some(phase)
        decreases |todo|
      {
        var id :| id in todo;
        if tickets[id].phase == Some(phase) {
          count := count + 1;
        }
        todo := todo - {id};
      }
    }

    method RemovePhase(ref: string) returns (err: Option<Error>)
      requires Valid()
      modifies this
      ensures Valid()
      ensures Abs() == Settled(old(Abs()), DeletePhase(old(Abs()), ref))
      ensures err == Outcome(DeletePhase(old(Abs()), ref))
      ensures tree.tickets == old(tree.tickets) && (err.Some? ==> tree == old(tree))
    {
      hide Sound, Blank, Pad3, ResolvePhase;
      if Blank(ref) {
        return Some(InvalidArgument);
      }
      var found := LookupPhase(ref);
      if found.None? {
        return Some(NotFound);
      }
      var ph := found.value;
      var count := CountTickets(ph.id);
      if count > 0 {
        return Some(FailedPrecondition);
      }
      RemovePhaseSound(Abs(), phasesBySlug, tree, where, clock, ph);
      tree := RemovePhaseDir(tree, PhaseDirName(ph));
      phases := phases - {ph.id};
      phasesBySlug := phasesBySlug - {ph.slug};
      return None;
    }
  }

  /** A live, open work ticket is kept from in_progress under enforcement exactly by a dependency that is
      missing or not done; a move that is let through changes the column and nothing else. */
  ghost predicate GatedMove(before: map<Id, Ticket>, after: map<Id, Ticket>, id: Id, target: Column, comment: string,
                            enforce: bool, err: Option<Error>)
  {
    && (id in before && !Blank(id) && !Blank(comment) && target == InProgress && enforce
        && before[id].kind == Work && before[id].column != Done ==>
          (err == Some(FailedPrecondition) <==>
           exists d :: d in before[id].dependsOn && (d !in before || before[d].column != Done)))
    && (err.Some? ==> after == before)
    && (err.None? ==> id in before && after == before[id := before[id].(column := target)])
  }

  lemma MoveGate(b: Board, id: Id, target: Column, comment: string, enforce: bool, c: Call)
    requires WellKeyed(b)
    ensures
      var r := Move(b, id, target, comment, enforce, c);
      GatedMove(b.tickets, Settled(b, r).tickets, id, target, comment, enforce, Outcome(r))
  {
    MoveMeans(b, id, target, comment, enforce, c);
    hide Blank, Move;
  }

  lemma RewriteMints(b: Board, t: Ticket, entry: Comment, other: Id)
    requires t.id in b.comments && NewCommentId(b.comments, other) && other != entry.id
    ensures NewCommentId(RewriteWithComment(b, t, entry).comments, other)
  {
  }

  /** An archive call uses up its own uuid and time only. */
  lemma FlipMints(b: Board, id: Id, comment: string, want: bool, clock: nat, calls: seq<Call>)
    requires WellKeyed(b) && CallsInOrder(b.comments, clock, calls) && calls != []
    ensures var next := Settled(b, FlipArchive(b, id, comment, want, calls[0]));
            forall i :: 0 < i < |calls| ==> calls[i].now > calls[0].now && Mints(next.comments, calls[i].newId)
  {
    hide Blank, NewCommentId, RewriteWithComment;
    var c := calls[0];
    forall i | 0 < i < |calls|
      ensures Mints(Settled(b, FlipArchive(b, id, comment, want, c)).comments, calls[i].newId)
    {
      assert Mints(b.comments, calls[i].newId) && c.newId != calls[i].newId;
      if FlipArchive(b, id, comment, want, c).Ok? {
        RewriteMints(b, b.tickets[id].(archived := want), Entry(c, if want then SystemArchive else SystemUnarchive),
                     calls[i].newId);
      }
    }
  }

  lemma PromoteMints(b: Board, id: Id, comment: string, c: Call, other: Id)
    requires WellKeyed(b) && NewCommentId(b.comments, other) && c.newId != other
    ensures NewCommentId(Settled(b, Promote(b, id, comment, c)).comments, other)
  {
    hide Blank, NewCommentId, RewriteWithComment;
    if Promote(b, id, comment, c).Ok? {
      RewriteMints(b, b.tickets[id].(kind := Work), Entry(c, SystemPromote), other);
    }
  }

  lemma SweptNothing(b: Board, comment: string, calls: seq<Call>)
    requires WellKeyed(b)
    ensures Sweep(b, [], comment, calls) == b
  {
  }

  lemma SortedAreActive(b: Board, ids: seq<Id>)
    requires Ordering.Sorted(ids, Ordering.StrLess)
    requires forall id :: id in ids ==> id in b.tickets && !b.tickets[id].archived
    ensures AllActive(b, ids)
  {
    Ordering.StrOrder(ids);
    Ordering.SortedNoDup(ids, Ordering.StrLess);
  }

  /** Archiving the tickets before it does not touch the next one, so its own call succeeds. */
  lemma NextIsActive(b: Board, bySlug: map<string, Id>, tree: Tree, where: map<Id, DirPath>, clock: nat,
                     active: seq<Id>, i: nat, comment: string, calls: seq<Call>)
    requires Sound(b, bySlug, tree, where, clock) && AllActive(b, active) && !Blank(comment) && i < |active| <= |calls|
    ensures WellKeyed(b) && FlipArchive(Sweep(b, active[..i], comment, calls), active[i], comment, true, calls[i]).Ok?
  {
    hide Coherent, SlugIndex, Recent, CommentIdsSound, EdgesLive, TrailsExplain, Graph.Acyclic, PhasesKept,
      CompletionsKept, Blank, Sweep;
    SweepArchives(b, active[..i], comment, calls, active[i]);
  }

  /** A sorted list of live ids is no longer than the board. */
  lemma KeysBound(ids: seq<Id>, tickets: map<Id, Ticket>)
    requires Ordering.Sorted(ids, Ordering.StrLess) && forall id :: id in ids ==> id in tickets
    ensures |ids| <= |tickets|
  {
    Ordering.StrOrder(ids);
    Ordering.SortedNoDup(ids, Ordering.StrLess);
    Ordering.NoDupSize(ids);
    var keys := set id | id in ids;
    assert tickets.Keys == keys + (tickets.Keys - keys);
    assert |tickets| == |tickets.Keys|;
  }

  /** What soundness says of one live ticket. */
  lemma SoundHome(b: Board, bySlug: map<string, Id>, tree: Tree, where: map<Id, DirPath>, clock: nat, id: Id)
    requires Sound(b, bySlug, tree, where, clock) && id in b.tickets
    ensures WellKeyed(b) && b.tickets[id].id == id && id in b.comments
    ensures id in where && where[id] in tree.tickets
    ensures tree.tickets[where[id]].rec.fields == YamlOf(b.tickets[id])
    ensures where[id].phaseDir == Parent(b.phases, b.tickets[id].phase)
    ensures b.tickets[id].phase.Some? ==> b.tickets[id].phase.value in b.phases
    ensures CompletionFits(b.tickets[id])
    ensures b.tickets[id].kind == Idea ==> b.tickets[id].column == Todo
  {
    hide Pad3, TicketsPlaced, PhasesPlaced, SlugIndex, FilesHold, EdgesLive, TrailsExplain, CommentIdsSound;
    HomeOf(b, tree, where, id);
    if b.tickets[id].kind == Idea {
      IdeaStaysInTodo(b, id);
    }
  }

  lemma SoundKeyed(b: Board, bySlug: map<string, Id>, tree: Tree, where: map<Id, DirPath>, clock: nat)
    requires Sound(b, bySlug, tree, where, clock)
    ensures WellKeyed(b)
  {
  }

  lemma CommitHolds(b: Board, tree: Tree, where: map<Id, DirPath>, clock: nat, t: Ticket, entry: Comment,
                    dir': TicketDir)
    requires Coherent(b, tree, where) && Recent(b.comments, clock) && entry.at > clock
    requires t.id in b.tickets && t.id in where && where[t.id] in tree.tickets
    requires CommitOf(b, t, entry, tree.tickets[where[t.id]], dir')
    ensures DirHolds(dir', t, b.comments[t.id] + [entry])
  {
    hide Pad3, RenderCompletion, TicketsPlaced, PhasesPlaced;
    HomeOf(b, tree, where, t.id);
    CommentFiled(tree.tickets[where[t.id]].comments, b.comments[t.id], entry);
  }

  /** dir' is dir after a commit of ticket t with one more comment. */
  ghost predicate CommitOf(b: Board, t: Ticket, entry: Comment, dir: TicketDir, dir': TicketDir)
    requires t.id in b.tickets
  {
    && dir'.rec.fields == YamlOf(t) && dir'.rec.number == dir.rec.number
    && dir'.comments == dir.comments[NameOf(entry) := entry]
    && if t.completion == b.tickets[t.id].completion then dir'.completionMd == dir.completionMd
       else t.completion.Some? ==> dir'.completionMd == RenderCompletion(t.completion.value.sections)
  }

  lemma CommitSound(b: Board, bySlug: map<string, Id>, tree: Tree, where: map<Id, DirPath>, clock: nat,
                    t: Ticket, entry: Comment, dir': TicketDir)
    requires Sound(b, bySlug, tree, where, clock) && RewriteAllowed(b, t, entry)
    requires t.id in b.tickets && t.phase == b.tickets[t.id].phase && entry.at > clock && Mints(b.comments, entry.id)
    requires t.id in where && where[t.id] in tree.tickets && CommitOf(b, t, entry, tree.tickets[where[t.id]], dir')
    ensures Sound(RewriteWithComment(b, t, entry), bySlug, WriteDir(tree, where[t.id], dir'), where, entry.at)
  {
    hide Pad3, RenderCompletion, TicketsPlaced, PhasesPlaced, CommitOf, RewriteAllowed, SlugIndex, CommentIdsSound,
      Blank, NewCommentId;
    CommentIdsStay(b.comments, t.id, entry);
    CommitHolds(b, tree, where, clock, t, entry, dir');
    assert dir'.rec.number == tree.tickets[where[t.id]].rec.number by {
      CommitKeepsNumber(b, t, entry, tree.tickets[where[t.id]], dir');
    }
    RewriteCoherent(b, tree, where, t, b.comments[t.id] + [entry], dir');
    RewriteKeepsInv(b, t, entry);
    CommitRecent(b.comments, clock, t.id, entry);
  }

  lemma CommitKeepsNumber(b: Board, t: Ticket, entry: Comment, dir: TicketDir, dir': TicketDir)
    requires t.id in b.tickets && CommitOf(b, t, entry, dir, dir')
    ensures dir'.rec.number == dir.rec.number
  {
  }

  lemma CommitRecent(comments: map<Id, seq<Comment>>, clock: nat, id: Id, entry: Comment)
    requires Recent(comments, clock) && id in comments && entry.at > clock
    ensures Recent(comments[id := comments[id] + [entry]], entry.at)
  {
  }

  lemma CreateSound(b: Board, bySlug: map<string, Id>, tree: Tree, where: map<Id, DirPath>, clock: nat,
                    t: Ticket, p: DirPath, dir: TicketDir)
    requires Sound(b, bySlug, tree, where, clock) && MayPut(b, t, []) && t.id !in b.tickets && t.completion.None?
    requires dir == TicketDir(TicketRec(dir.rec.number, t), "", map[])
    requires p.phaseDir == Parent(b.phases, t.phase) && HasNumber(p.base, dir.rec.number)
    requires forall q :: q in tree.tickets ==> q != p && tree.tickets[q].rec.number < dir.rec.number
    ensures Sound(Put(b, t, []), bySlug, WriteDir(tree, p, dir), where[t.id := p], clock)
  {
    hide Pad3, TicketsPlaced, PhasesPlaced, MayPut, SlugIndex, HasNumber, Parent, CommentIdsSound;
    assert DirHolds(dir, t, []);
    CommentIdsDrop(b.comments, b.comments[t.id := []]);
    CreateCoherent(b, tree, where, t, p, dir);
    PutKeepsInv(b, t, []);
  }

  lemma SoundMayCreate(b: Board, bySlug: map<string, Id>, tree: Tree, where: map<Id, DirPath>, clock: nat, t: Ticket)
    requires Sound(b, bySlug, tree, where, clock)
    requires !Blank(t.id) && t.id !in b.tickets
    requires AllWork(b.tickets, t.dependsOn) && AllWork(b.tickets, t.parallelWith)
    requires t.column == Todo && !t.archived && t.completion.None? && (t.phase.Some? ==> t.phase.value in b.phases)
    ensures MayPut(b, t, [])
  {
    hide Inv, Coherent, MayPut, AllWork, CommentIdsSound;
    MayCreate(b, t);
  }

  lemma EditSound(b: Board, bySlug: map<string, Id>, tree: Tree, where: map<Id, DirPath>, clock: nat,
                  t: Ticket, dir: TicketDir)
    requires Sound(b, bySlug, tree, where, clock)
    requires t.id in b.tickets && t.id in b.comments && MayPut(b, t, b.comments[t.id])
    requires t.phase == b.tickets[t.id].phase && t.completion == b.tickets[t.id].completion
    requires StatusOf(t) == StatusOf(b.tickets[t.id])
    requires t.id in where && where[t.id] in tree.tickets
    requires dir == tree.tickets[where[t.id]].(rec := dir.rec)
    requires dir.rec.number == tree.tickets[where[t.id]].rec.number && dir.rec.fields == YamlOf(t)
    ensures Sound(Rewrite(b, t), bySlug, WriteDir(tree, where[t.id], dir), where, clock)
  {
    hide Pad3, TicketsPlaced, PhasesPlaced, MayPut, SlugIndex, FilesHold, RenderCompletion, EdgesLive, TrailsExplain,
      CommentIdsSound;
    HomeOf(b, tree, where, t.id);
    RewriteCoherent(b, tree, where, t, b.comments[t.id], dir);
    PutKeepsInv(b, t, b.comments[t.id]);
    assert Put(b, t, b.comments[t.id]) == Rewrite(b, t) by {
      PutSameTrailSteps(b, t);
    }
  }

  lemma SoundMayEdit(b: Board, bySlug: map<string, Id>, tree: Tree, where: map<Id, DirPath>, clock: nat,
                     id: Id, arg: UpdateInput, t: Ticket)
    requires Sound(b, bySlug, tree, where, clock)
    requires id in b.tickets && id in b.comments
    requires ValidRefs(b, id, arg.dependsOn) && ValidRefs(b, id, arg.parallelWith)
    requires arg.dependsOn.Some? ==> !Graph.ReachesFromAny(Edges(b.tickets), CompactRefs(arg.dependsOn.value), id)
    requires t == b.tickets[id].(
      title := t.title, wave := t.wave,
      dependsOn := if arg.dependsOn.Some? then CompactRefs(arg.dependsOn.value) else b.tickets[id].dependsOn,
      parallelWith := if arg.parallelWith.Some? then CompactRefs(arg.parallelWith.value)
                      else b.tickets[id].parallelWith)
    ensures MayPut(b, t, b.comments[id])
  {
    hide Inv, Coherent, MayPut, ValidRefs, CompactRefs, Graph.ReachesFromAny, CommentIdsSound;
    MayEdit(b, id, arg, t);
  }

  /** The cached tickets with those outside todo already unlinked. */
  ghost predicate Cascading(tickets: map<Id, Ticket>, cached: map<Id, Ticket>, id: Id, todo: set<Id>) {
    && cached.Keys == tickets.Keys
    && forall x :: x in tickets && x != id ==> cached[x] == if x in todo then tickets[x] else Unlink(tickets[x], id)
  }

  ghost predicate CascadingDirs(
      dirs: map<DirPath, TicketDir>, now: map<DirPath, TicketDir>, doomed: DirPath, id: Id, todo: set<Id>) {
    && now.Keys == dirs.Keys
    && forall p :: p in dirs && p != doomed ==>
         now[p] == if dirs[p].rec.fields.id in todo then dirs[p] else UnlinkDir(dirs[p], id)
  }

  lemma CascadeStarts(tickets: map<Id, Ticket>, dirs: map<DirPath, TicketDir>, doomed: DirPath, id: Id)
    requires forall p :: p in dirs && p != doomed ==> dirs[p].rec.fields.id in tickets && dirs[p].rec.fields.id != id
    ensures Cascading(tickets, tickets, id, tickets.Keys - {id})
    ensures CascadingDirs(dirs, dirs, doomed, id, tickets.Keys - {id})
  {
  }

  lemma CascadeAdvances(tickets: map<Id, Ticket>, cached: map<Id, Ticket>, id: Id, todo: set<Id>, x: Id)
    requires Cascading(tickets, cached, id, todo) && x in tickets
    ensures Cascading(tickets, cached[x := Unlink(tickets[x], id)], id, todo - {x})
  {
    hide Unlink;
  }

  lemma CascadeDirsAdvance(
      dirs: map<DirPath, TicketDir>, now: map<DirPath, TicketDir>, doomed: DirPath, id: Id, todo: set<Id>, p: DirPath)
    requires CascadingDirs(dirs, now, doomed, id, todo) && p in dirs
    requires forall q :: q in dirs && dirs[q].rec.fields.id == dirs[p].rec.fields.id ==> q == p
    ensures CascadingDirs(dirs, now[p := UnlinkDir(dirs[p], id)], doomed, id, todo - {dirs[p].rec.fields.id})
  {
    hide UnlinkDir;
  }

  lemma CascadeEnds(tickets: map<Id, Ticket>, cached: map<Id, Ticket>, dirs: map<DirPath, TicketDir>,
                    now: map<DirPath, TicketDir>, doomed: DirPath, id: Id)
    requires Cascading(tickets, cached, id, {}) && CascadingDirs(dirs, now, doomed, id, {})
    ensures cached - {id} == Cascade(tickets, id) && now - {doomed} == CascadeDirs(dirs, doomed, id)
  {
    hide Unlink, UnlinkDir;
  }

  /** The ticket's directory is the only one whose record has its id. */
  lemma OnlyHome(b: Board, bySlug: map<string, Id>, tree: Tree, where: map<Id, DirPath>, clock: nat, id: Id)
    requires Sound(b, bySlug, tree, where, clock) && id in b.tickets && id in where && where[id] in tree.tickets
    ensures tree.tickets[where[id]].rec.fields.id == id
    ensures forall p :: p in tree.tickets && tree.tickets[p].rec.fields.id == id ==> p == where[id]
  {
    hide Pad3, Houses, NumbersDiffer, PhasesPlaced, Inv, SlugIndex, Recent, CommentIdsSound;
    assert Housed(b, tree.tickets, where, id);
  }

  lemma OwnersLive(b: Board, bySlug: map<string, Id>, tree: Tree, where: map<Id, DirPath>, clock: nat, id: Id)
    requires Sound(b, bySlug, tree, where, clock) && id in b.tickets && id in where
    ensures where[id] in tree.tickets
    ensures forall p :: p in tree.tickets && p != where[id] ==>
              tree.tickets[p].rec.fields.id in b.tickets && tree.tickets[p].rec.fields.id != id
  {
    hide Pad3, Houses, NumbersDiffer, PhasesPlaced, Inv, SlugIndex, Recent, CommentIdsSound;
    assert Housed(b, tree.tickets, where, id);
  }

  lemma DeleteSound(b: Board, bySlug: map<string, Id>, tree: Tree, where: map<Id, DirPath>, clock: nat, id: Id)
    requires Sound(b, bySlug, tree, where, clock) && Delete(b, id).Ok? && id in where
    ensures Delete(b, id).value == Board(Cascade(b.tickets, id), b.comments - {id}, b.phases)
    ensures Sound(Delete(b, id).value, bySlug, tree.(tickets := CascadeDirs(tree.tickets, where[id], id)),
                  where - {id}, clock)
  {
    hide Pad3, TicketsPlaced, PhasesPlaced, Unlink, SlugIndex, Blank, EdgesLive, TrailsExplain, Graph.Acyclic,
      CommentIdsSound;
    CommentIdsDrop(b.comments, b.comments - {id});
    CascadeCoherent(b, tree, where, id);
    DeleteKeepsInv(b, id);
  }

  lemma SoundSlugs(b: Board, bySlug: map<string, Id>, tree: Tree, where: map<Id, DirPath>, clock: nat)
    requires Sound(b, bySlug, tree, where, clock)
    ensures forall s :: s in bySlug <==> exists p :: p in b.phases && b.phases[p].slug == s
  {
    hide Inv, Coherent, CommentIdsSound;
  }

  lemma SoundPhase(b: Board, bySlug: map<string, Id>, tree: Tree, where: map<Id, DirPath>, clock: nat, ph: Phase)
    requires Sound(b, bySlug, tree, where, clock) && ph.id in b.phases && b.phases[ph.id] == ph
    ensures PhaseDirName(ph) in tree.phases && tree.phases[PhaseDirName(ph)] == ph
  {
    hide Inv, TicketsPlaced, SlugIndex, Recent, PhaseDirName, CommentIdsSound;
  }

  /** A new slug means a new directory name. */
  lemma NewPhaseDirFree(phases: map<Id, Phase>, dirs: map<string, Phase>, ph: Phase)
    requires PhasesPlaced(phases, dirs) && forall p :: p in phases ==> phases[p].slug != ph.slug
    ensures PhaseDirName(ph) !in dirs
  {
    hide Pad3;
    if PhaseDirName(ph) in dirs {
      var other := dirs[PhaseDirName(ph)];
      NumberedNameDecodes(other.number, other.slug, ph.number, ph.slug);
    }
  }

  lemma AddPhaseSound(b: Board, bySlug: map<string, Id>, tree: Tree, where: map<Id, DirPath>, clock: nat, ph: Phase)
    requires Sound(b, bySlug, tree, where, clock) && ph.id !in b.phases && NextNumber(b.phases, ph.number)
    requires ph.slug !in bySlug
    ensures Sound(b.(phases := b.phases[ph.id := ph]), bySlug[ph.slug := ph.id], WritePhase(tree, ph), where, clock)
  {
    hide Pad3, TicketsPlaced, PhasesPlaced, EdgesLive, TrailsExplain, Graph.Acyclic, NamedIds, CompletionsKept,
      CommentIdsSound, SlugIndex, PhasesKept, Recent, PhaseDirName, EveryTicketSteps;
    SlugIsNew(b.phases, bySlug, ph);
    NewPhaseKept(b, ph);
    NoTicketNames(b, ph);
    NewPhaseDirFree(b.phases, tree.phases, ph);
    PutPhaseCoherent(b, tree, where, ph);
    PhaseStepsKeepInv(b, b.phases[ph.id := ph]);
  }

  lemma SlugIsNew(phases: map<Id, Phase>, bySlug: map<string, Id>, ph: Phase)
    requires SlugIndex(phases, bySlug) && ph.id !in phases && ph.slug !in bySlug
    ensures forall p :: p in phases ==> phases[p].slug != ph.slug
    ensures SlugIndex(phases[ph.id := ph], bySlug[ph.slug := ph.id])
  {
  }

  lemma NewPhaseKept(b: Board, ph: Phase)
    requires PhasesKept(b) && ph.id !in b.phases && NextNumber(b.phases, ph.number)
    requires forall p :: p in b.phases ==> b.phases[p].slug != ph.slug
    ensures PhasesKept(b.(phases := b.phases[ph.id := ph]))
  {
  }

  lemma NoTicketNames(b: Board, ph: Phase)
    requires PhasesKept(b) && ph.id !in b.phases
    ensures forall id :: id in b.tickets ==> b.tickets[id].phase != Some(ph.id)
  {
  }

  /** Slug, number and so the directory of a phase survive a new name. */
  lemma PhaseRenamed(b: Board, bySlug: map<string, Id>, ph: Phase)
    requires PhasesKept(b) && SlugIndex(b.phases, bySlug) && WellKeyed(b)
    requires ph.id in b.phases && ph == b.phases[ph.id].(name := ph.name)
    ensures PhasesKept(b.(phases := b.phases[ph.id := ph])) && SlugIndex(b.phases[ph.id := ph], bySlug)
    ensures PhaseDirName(ph) == PhaseDirName(b.phases[ph.id])
    ensures var phases := b.phases[ph.id := ph]; forall p :: p in phases ==> phases[p].id == p
  {
    hide Pad3;
  }

  lemma EditPhaseSound(b: Board, bySlug: map<string, Id>, tree: Tree, where: map<Id, DirPath>, clock: nat, ph: Phase)
    requires Sound(b, bySlug, tree, where, clock) && ph.id in b.phases && ph == b.phases[ph.id].(name := ph.name)
    ensures Sound(b.(phases := b.phases[ph.id := ph]), bySlug, WritePhase(tree, ph), where, clock)
  {
    PhaseRenamed(b, bySlug, ph);
    hide Pad3, TicketsPlaced, PhasesPlaced, EdgesLive, TrailsExplain, Graph.Acyclic, PhasesKept, SlugIndex,
      WritePhase, CommentIdsSound;
    PutPhaseCoherent(b, tree, where, ph);
    PhaseStepsKeepInv(b, b.phases[ph.id := ph]);
  }

  lemma PhaseRemoved(b: Board, bySlug: map<string, Id>, ph: Phase)
    requires PhasesKept(b) && SlugIndex(b.phases, bySlug) && ph.id in b.phases && b.phases[ph.id] == ph
    requires forall id :: id in b.tickets ==> b.tickets[id].phase != Some(ph.id)
    ensures PhasesKept(b.(phases := b.phases - {ph.id})) && SlugIndex(b.phases - {ph.id}, bySlug - {ph.slug})
  {
  }

  lemma RemovePhaseSound(b: Board, bySlug: map<string, Id>, tree: Tree, where: map<Id, DirPath>, clock: nat, ph: Phase)
    requires Sound(b, bySlug, tree, where, clock) && ph.id in b.phases && b.phases[ph.id] == ph
    requires forall id :: id in b.tickets ==> b.tickets[id].phase != Some(ph.id)
    ensures RemovePhaseDir(tree, PhaseDirName(ph)).tickets == tree.tickets
    ensures Sound(b.(phases := b.phases - {ph.id}), bySlug - {ph.slug}, RemovePhaseDir(tree, PhaseDirName(ph)),
                  where, clock)
  {
    PhaseRemoved(b, bySlug, ph);
    hide Pad3, TicketsPlaced, PhasesPlaced, EdgesLive, TrailsExplain, Graph.Acyclic, PhasesKept, SlugIndex,
      CommentIdsSound;
    RemovePhaseKeepsTickets(b, tree, where, ph);
    RemovePhaseCoherent(b, tree, where, ph);
    PhaseStepsKeepInv(b, b.phases - {ph.id});
  }

  /** The ticket's own fields agree with each other. */
  ghost predicate SelfConsistent(b: Board, t: Ticket) {
    && t.id in b.tickets && b.tickets[t.id] == t
    && (t.phase.Some? ==> t.phase.value in b.phases)
    && CompletionFits(t)
  }

  lemma MoveAllowed(b: Board, t: Ticket, target: Column, c: Call)
    requires SelfConsistent(b, t) && t.column != Done && target != Done && (t.kind == Idea ==> target == Todo)
    ensures RewriteAllowed(b, t.(column := target),
                           Comment(c.newId, SystemMove, Some(t.column), Some(target), c.agent, c.now))
  {
  }

  lemma AssignAllowed(b: Board, t: Ticket, phase: Option<Id>, c: Call)
    requires SelfConsistent(b, t) && (phase.Some? ==> phase.value in b.phases)
    ensures RewriteAllowed(b, t.(phase := phase), Entry(c, SystemMove))
  {
  }

  /** The renamed and rewritten directory keeps everything sound; the rename target is vacant. */
  lemma AssignSound(b: Board, bySlug: map<string, Id>, tree: Tree, where: map<Id, DirPath>, clock: nat,
                    t: Ticket, entry: Comment, target: DirPath, dir': TicketDir) returns (moved: Tree)
    requires Sound(b, bySlug, tree, where, clock) && RewriteAllowed(b, t, entry) && entry.at > clock
    requires Mints(b.comments, entry.id)
    requires t.id in b.tickets && t == b.tickets[t.id].(phase := t.phase) && t.phase != b.tickets[t.id].phase
    requires t.phase.Some? ==> t.phase.value in b.phases
    requires t.id in where && target == DirPath(Parent(b.phases, t.phase), where[t.id].base)
    requires where[t.id] in tree.tickets && CommitOf(b, t, entry, tree.tickets[where[t.id]], dir')
    ensures RenameDir(tree, where[t.id], target) == Some(moved)
    ensures target in moved.tickets && moved.tickets[target] == tree.tickets[where[t.id]]
    ensures Sound(RewriteWithComment(b, t, entry), bySlug, WriteDir(moved, target, dir'), where[t.id := target],
                  entry.at)
  {
    hide Pad3, RenderCompletion, TicketsPlaced, PhasesPlaced, RewriteAllowed, SlugIndex, FilesHold, EdgesLive,
      TrailsExplain, Graph.Acyclic, CommentIdsSound, Blank, NewCommentId;
    SoundHome(b, bySlug, tree, where, clock, t.id);
    CommentIdsStay(b.comments, t.id, entry);
    HomeOf(b, tree, where, t.id);
    CommitHolds(b, tree, where, clock, t, entry, dir');
    ParentsDiffer(b, tree, where, t.phase, b.tickets[t.id].phase);
    RenameTargetVacant(b, tree, where, t.id, target.phaseDir);
    moved := RenameDir(tree, where[t.id], target).value;
    MoveCoherent(b, tree, where, t, b.comments[t.id] + [entry], dir', target);
    RewriteKeepsInv(b, t, entry);
    CommitRecent(b.comments, clock, t.id, entry);
  }

  /** Different live phases, or a phase and none, mean different parent directories. */
  lemma ParentsDiffer(b: Board, tree: Tree, where: map<Id, DirPath>, x: Option<Id>, y: Option<Id>)
    requires Coherent(b, tree, where) && x != y
    requires (x.Some? ==> x.value in b.phases) && (y.Some? ==> y.value in b.phases)
    ensures Parent(b.phases, x) != Parent(b.phases, y)
  {
    hide Pad3, TicketsPlaced;
    if x.Some? && y.Some? {
      PhaseDirsDiffer(b.phases, tree.phases, x.value, y.value);
    }
  }

  lemma EmptyInv()
    ensures Inv(EMPTY_BOARD) && Coherent(EMPTY_BOARD, EMPTY_TREE, map[]) && CommentIdsSound(EMPTY_BOARD.comments)
  {
    RunKeepsInv([EMPTY_BOARD], [], [], 0);
  }
}
