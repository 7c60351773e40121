/** The audit trail: what a ticket's comments say happened to it, replayed strictly. */
module AuditTrail {
  import opened Common
  import opened Board

  /** What the trail accounts for. */
  datatype Status = Status(column: Column, kind: Kind, archived: bool)

  function StatusOf(t: Ticket): Status {
    Status(t.column, t.kind, t.archived)
  }

  function BornAs(kind: Kind): Status {
    Status(Todo, kind, false)
  }

  /** One entry replayed; None when the entry contradicts the status it is replayed on. */
  function ReplayOne(s: Status, c: Comment): Option<Status> {
    match c.kind
    case User => Some(s)
    case SystemMove =>
      if c.fromColumn.None? && c.toColumn.None? then Some(s) // a phase reassignment
      else if c.fromColumn == Some(s.column) && s.column != Done && c.toColumn.Some? && c.toColumn.value != Done
              && (s.kind == Idea ==> c.toColumn.value == Todo) then
        Some(s.(column := c.toColumn.value))
      else None
    case SystemCompletion => if s.kind == Work && s.column != Done then Some(s.(column := Done)) else None
    case SystemArchive => if s.archived then None else Some(s.(archived := true))
    case SystemUnarchive => if s.archived then Some(s.(archived := false)) else None
    case SystemPromote => if s.kind == Idea then Some(s.(kind := Work)) else None
  }

  function Replay(s: Status, trail: seq<Comment>): Option<Status> {
    if trail == [] then Some(s)
    else
      var n := |trail| - 1;
      match Replay(s, trail[..n]) {
        case None => None
        case Some(mid) => ReplayOne(mid, trail[n])
      }
  }

  /** The kind a ticket was created with, read off its trail and its present kind. */
  ghost function BirthKind(trail: seq<Comment>, kind: Kind): Kind {
    if exists c :: c in trail && c.kind == SystemPromote then Idea else kind
  }

  /** The trail explains the ticket: replayed from its creation it ends at its present status. */
  ghost predicate Explains(trail: seq<Comment>, t: Ticket) {
    Replay(BornAs(BirthKind(trail, t.kind)), trail) == Some(StatusOf(t))
  }

  lemma ReplayAppend(s: Status, trail: seq<Comment>, c: Comment)
    ensures Replay(s, trail + [c]) ==
            match Replay(s, trail) { case None => None case Some(mid) => ReplayOne(mid, c) }
  {
    assert (trail + [c])[..|trail|] == trail;
  }

  /** Appending an entry that replays onto the new status keeps the trail explaining the ticket. */
  lemma ExplainsAppend(trail: seq<Comment>, t: Ticket, c: Comment, t': Ticket)
    requires Explains(trail, t)
    requires ReplayOne(StatusOf(t), c) == Some(StatusOf(t'))
    requires t'.kind != t.kind ==> c.kind == SystemPromote && t.kind == Idea
    ensures Explains(trail + [c], t')
    ensures BirthKind(trail + [c], t'.kind) == BirthKind(trail, t.kind)
  {
    ReplayAppend(BornAs(BirthKind(trail, t.kind)), trail, c);
    assert c in trail + [c];
    assert forall x :: x in trail + [c] <==> x in trail || x == c;
  }

  lemma {:induction false} ReplayPrefix(s: Status, trail: seq<Comment>, k: nat)
    requires Replay(s, trail).Some? && k <= |trail|
    ensures Replay(s, trail[..k]).Some?
    decreases |trail|
  {
    if k < |trail| {
      var n := |trail| - 1;
      ReplayPrefix(s, trail[..n], k);
      assert trail[..n][..k] == trail[..k];
    } else {
      assert trail[..k] == trail;
    }
  }

  // ----- Consequences for a trail that replays -----

  function CountKind(trail: seq<Comment>, kind: CommentKind): nat {
    if trail == [] then 0
    else
      var n := |trail| - 1;
      CountKind(trail[..n], kind) + if trail[n].kind == kind then 1 else 0
  }

  /** Archive and unarchive entries alternate: after every prefix the archive entries lead by one when
      the ticket is archived there and are level otherwise. */
  lemma {:induction false} ArchiveEntriesAlternate(kind: Kind, trail: seq<Comment>, k: nat)
    requires Replay(BornAs(kind), trail).Some? && k <= |trail|
    ensures Replay(BornAs(kind), trail[..k]).Some?
    ensures CountKind(trail[..k], SystemArchive) ==
            CountKind(trail[..k], SystemUnarchive)
            + if Replay(BornAs(kind), trail[..k]).value.archived then 1 else 0
    decreases k
  {
    ReplayPrefix(BornAs(kind), trail, k);
    if k > 0 {
      ArchiveEntriesAlternate(kind, trail, k - 1);
      assert trail[..k][..k - 1] == trail[..k - 1];
    }
  }

  /** The last replayed entry of a prefix. */
  lemma ReplayLast(s: Status, trail: seq<Comment>, m: nat)
    requires Replay(s, trail).Some? && 0 < m <= |trail|
    ensures Replay(s, trail[..m - 1]).Some? && Replay(s, trail[..m]).Some?
    ensures ReplayOne(Replay(s, trail[..m - 1]).value, trail[m - 1]) == Replay(s, trail[..m])
  {
    hide ReplayOne;
    ReplayPrefix(s, trail, m);
    ReplayPrefix(s, trail, m - 1);
    assert trail[..m][..m - 1] == trail[..m - 1];
  }

  /** A trail holds at most one completion, nothing after it moves the column, and an idea
      that was never promoted never left todo. */
  lemma {:induction false} DoneIsFinal(kind: Kind, trail: seq<Comment>, k: nat, m: nat)
    requires Replay(BornAs(kind), trail).Some? && k <= m <= |trail|
    ensures Replay(BornAs(kind), trail[..k]).Some? && Replay(BornAs(kind), trail[..m]).Some?
    ensures Replay(BornAs(kind), trail[..k]).value.column == Done ==>
              Replay(BornAs(kind), trail[..m]).value.column == Done
    ensures Replay(BornAs(kind), trail[..m]).value.kind == Idea ==>
              Replay(BornAs(kind), trail[..m]).value.column == Todo
    decreases m
  {
    hide Replay, ReplayOne;
    ReplayPrefix(BornAs(kind), trail, k);
    if m == 0 {
      BornInTodo(kind, trail);
    } else {
      ReplayLast(BornAs(kind), trail, m);
      DoneIsFinal(kind, trail, if k < m then k else k - 1, m - 1);
      OneEntry(Replay(BornAs(kind), trail[..m - 1]).value, trail[m - 1]);
    }
  }

  lemma BornInTodo(kind: Kind, trail: seq<Comment>)
    ensures Replay(BornAs(kind), trail[..0]) == Some(BornAs(kind))
  {
  }

  lemma OneEntry(s: Status, c: Comment)
    requires ReplayOne(s, c).Some? && (s.kind == Idea ==> s.column == Todo)
    ensures s.column == Done ==> ReplayOne(s, c).value.column == Done
    ensures ReplayOne(s, c).value.kind == Idea ==> ReplayOne(s, c).value.column == Todo
  {
  }

  // ----- The commit hook's owner scan -----

  predicate IsColumnMove(c: Comment) {
    c.kind == SystemMove && c.toColumn.Some?
  }

  /** An entry that changes the column when replayed: a column move or a completion. */
  predicate ChangesColumn(c: Comment) {
    IsColumnMove(c) || c.kind == SystemCompletion
  }

  /** c is the last entry of the trail that set the column. */
  ghost predicate IsLastColumnChange(trail: seq<Comment>, c: Comment) {
    exists k :: 0 <= k < |trail| && trail[k] == c && ChangesColumn(c)
                && forall j :: k < j < |trail| ==> !ChangesColumn(trail[j])
  }

  predicate Claims(c: Comment) {
    IsColumnMove(c) && c.toColumn.value == InProgress
  }

  ghost predicate IsLastClaim(trail: seq<Comment>, k: int) {
    0 <= k < |trail| && Claims(trail[k]) && forall j :: k < j < |trail| ==> !Claims(trail[j])
  }

  /** The loop of inProgressRefsForAgent: the author of the last move into in_progress,
      or the creator when there is none. */
  method OwnerScan(trail: seq<Comment>, createdBy: Id) returns (owner: Id)
    ensures (exists c :: c in trail && Claims(c)) ==> exists k :: IsLastClaim(trail, k) && owner == trail[k].author
    ensures (forall c :: c in trail ==> !Claims(c)) ==> owner == createdBy
  {
    owner := createdBy;
    ghost var last := -1;
    for i := 0 to |trail|
      invariant -1 <= last < i
      invariant forall j :: last < j < i ==> !Claims(trail[j])
      invariant if last < 0 then owner == createdBy else Claims(trail[last]) && owner == trail[last].author
    {
      if Claims(trail[i]) {
        owner := trail[i].author;
        last := i;
      }
    }
    if last >= 0 {
      assert IsLastClaim(trail, last);
    }
  }

  /** The last column change of a ticket not in todo exists and set the present column. */
  lemma {:induction false} LastColumnChange(kind: Kind, trail: seq<Comment>) returns (k: nat)
    requires Replay(BornAs(kind), trail).Some?
    requires Replay(BornAs(kind), trail).value.column != Todo
    ensures k < |trail| && ChangesColumn(trail[k]) && forall j :: k < j < |trail| ==> !ChangesColumn(trail[j])
    ensures IsColumnMove(trail[k]) ==> trail[k].toColumn.value == Replay(BornAs(kind), trail).value.column
    ensures trail[k].kind == SystemCompletion ==> Replay(BornAs(kind), trail).value.column == Done
  {
    var n := |trail| - 1;
    if ChangesColumn(trail[n]) {
      k := n;
    } else {
      k := LastColumnChange(kind, trail[..n]);
      assert forall j :: 0 <= j < n ==> trail[..n][j] == trail[j];
    }
  }

  /** What the hook attributes a commit to: for an in_progress ticket whose trail explains it,
      the scan answers the author of the last column change. */
  method OwnerOfInProgress(trail: seq<Comment>, t: Ticket) returns (owner: Id)
    requires Explains(trail, t) && t.column == InProgress
    ensures exists c :: IsLastColumnChange(trail, c) && c.toColumn == Some(InProgress) && owner == c.author
  {
    ghost var k := LastColumnChange(BirthKind(trail, t.kind), trail);
    owner := OwnerScan(trail, t.createdBy);
    assert IsLastColumnChange(trail, trail[k]) && Claims(trail[k]);
  }
}
