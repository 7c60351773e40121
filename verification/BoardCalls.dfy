/** What each service call does to a board, field by field and error by error, and what follows for the
    dependency gate. */
module BoardCalls {
  import opened Common
  import opened Text
  import opened Board
  import Graph

  // ----- Reading -----

  /** A reference is an id first, a slug otherwise. */
  lemma ResolvePhaseMeans(phases: map<Id, Phase>, ref: string)
    ensures ref in phases ==> ResolvePhase(phases, ref) == Some(phases[ref])
    ensures ref !in phases && (exists p :: p in phases && phases[p].slug == ref) ==>
      var r := ResolvePhase(phases, ref);
      r.Some? && exists p :: p in phases && phases[p] == r.value && phases[p].slug == ref
    ensures ref !in phases && (forall p :: p in phases ==> phases[p].slug != ref) ==> ResolvePhase(phases, ref) == None
  {
  }

  /** The list of open dependencies is built one dependency after the other. */
  lemma {:induction false} BlockedByMeans(tickets: map<Id, Ticket>, a: seq<Id>, b: seq<Id>, d: Id)
    ensures BlockedBy(tickets, a + b) == BlockedBy(tickets, a) + BlockedBy(tickets, b)
    ensures BlockedBy(tickets, []) == []
    ensures BlockedBy(tickets, [d]) == if d in tickets && tickets[d].column == Done then [] else [d]
  {
    assert [d][..0] == [];
    if b == [] {
      assert a + b == a;
    } else {
      var n := |b| - 1;
      BlockedByMeans(tickets, a, b[..n], d);
      assert (a + b)[..|a + b| - 1] == a + b[..n];
    }
  }

  lemma {:induction false} RemoveIdMeans(a: seq<Id>, b: seq<Id>, x: Id, target: Id)
    ensures RemoveId(a + b, target) == RemoveId(a, target) + RemoveId(b, target)
    ensures RemoveId([], target) == [] && RemoveId([x], target) == if x == target then [] else [x]
  {
    assert [x][..0] == [];
    if b == [] {
      assert a + b == a;
    } else {
      var n := |b| - 1;
      RemoveIdMeans(a, b[..n], x, target);
      assert (a + b)[..|a + b| - 1] == a + b[..n];
    }
  }

  lemma {:induction false} CompactRefsMeans(a: seq<string>, b: seq<string>, ref: string)
    ensures CompactRefs(a + b) == CompactRefs(a) + CompactRefs(b)
    ensures CompactRefs([]) == [] && CompactRefs([ref]) == if Blank(ref) then [] else [TrimSpace(ref)]
  {
    hide Blank, TrimSpace;
    assert [ref][..0] == [];
    if b == [] {
      assert a + b == a;
    } else {
      var n := |b| - 1;
      CompactRefsMeans(a, b[..n], ref);
      assert (a + b)[..|a + b| - 1] == a + b[..n];
    }
  }

  /** Nothing blocks exactly when every dependency is live and done. */
  lemma {:induction false} NothingBlocks(tickets: map<Id, Ticket>, deps: seq<Id>)
    ensures BlockedBy(tickets, deps) == [] <==> forall d :: d in deps ==> d in tickets && tickets[d].column == Done
  {
    if deps != [] {
      var n := |deps| - 1;
      NothingBlocks(tickets, deps[..n]);
      assert deps == deps[..n] + [deps[n]];
    }
  }

  // ----- Calls on one ticket -----

  /** Ticket t stands where the ticket with its id was, its trail has one more entry, and the rest of the
      board is as before. */
  ghost predicate Rewritten(b: Board, next: Board, t: Ticket, entry: Comment) {
    && next.phases == b.phases && next.tickets.Keys == b.tickets.Keys && next.comments.Keys == b.comments.Keys
    && t.id in b.tickets && t.id in b.comments
    && next.tickets[t.id] == t && next.comments[t.id] == b.comments[t.id] + [entry]
    && (forall x :: x in b.tickets && x != t.id ==> next.tickets[x] == b.tickets[x])
    && (forall x :: x in b.comments && x != t.id ==> next.comments[x] == b.comments[x])
  }

  /** The dependency gate: under enforcement work enters in_progress only when every dependency is done. */
  lemma MoveMeans(b: Board, id: Id, target: Column, comment: string, enforce: bool, c: Call)
    requires WellKeyed(b)
    ensures
      var r := Move(b, id, target, comment, enforce, c);
      if Blank(id) || target == Done || Blank(comment) then r == Err(InvalidArgument)
      else if id !in b.tickets then r == Err(NotFound)
      else
        var t := b.tickets[id];
        if t.column == Done || (t.kind == Idea && target != Todo) then r == Err(FailedPrecondition)
        else if target == InProgress && enforce
                && exists d :: d in t.dependsOn && (d !in b.tickets || b.tickets[d].column != Done)
        then r == Err(FailedPrecondition)
        else
          r.Ok? && Rewritten(b, r.value, t.(column := target),
                             Comment(c.newId, SystemMove, Some(t.column), Some(target), c.agent, c.now))
  {
    hide Blank, BlockedBy, Rewritten, RewriteWithComment;
    if id in b.tickets {
      NothingBlocks(b.tickets, b.tickets[id].dependsOn);
      var t := b.tickets[id];
      RewriteIs(b, t.(column := target),
                Comment(c.newId, SystemMove, Some(t.column), Some(target), c.agent, c.now));
    }
  }

  lemma RewriteIs(b: Board, t: Ticket, entry: Comment)
    requires WellKeyed(b) && t.id in b.tickets
    ensures Rewritten(b, RewriteWithComment(b, t, entry), t, entry)
  {
  }

  lemma CompleteMeans(b: Board, id: Id, testing: string, work: string, learnings: string, c: Call)
    requires WellKeyed(b)
    ensures
      var r := Complete(b, id, testing, work, learnings, c);
      if Blank(id) || Utf8Len(TrimSpace(learnings)) < 10 then r == Err(InvalidArgument)
      else if id !in b.tickets then r == Err(NotFound)
      else if b.tickets[id].kind == Idea || b.tickets[id].column == Done then r == Err(FailedPrecondition)
      else
        && r.Ok? && id in r.value.tickets && r.value.tickets[id].completion.Some?
        && r.value.tickets[id].completion.value.sections.testing == TrimSpace(testing)
        && r.value.tickets[id].completion.value.sections.work == TrimSpace(work)
        && r.value.tickets[id].completion.value.sections.learnings == TrimSpace(learnings)
        && r.value.tickets[id].completion.value.at == c.now && r.value.tickets[id].completion.value.agent == c.agent
        && Rewritten(b, r.value, b.tickets[id].(column := Done, completion := r.value.tickets[id].completion),
                     Comment(c.newId, SystemCompletion, None, None, c.agent, c.now))
  {
    hide Blank, TrimSpace, Utf8Len;
  }

  lemma FlipArchiveMeans(b: Board, id: Id, comment: string, want: bool, c: Call)
    requires WellKeyed(b)
    ensures
      var r := FlipArchive(b, id, comment, want, c);
      if Blank(id) || Blank(comment) then r == Err(InvalidArgument)
      else if id !in b.tickets then r == Err(NotFound)
      else if b.tickets[id].archived == want then r == Err(FailedPrecondition)
      else
        var kind := if want then SystemArchive else SystemUnarchive;
        r.Ok? && Rewritten(b, r.value, b.tickets[id].(archived := want),
                           Comment(c.newId, kind, None, None, c.agent, c.now))
  {
    hide Blank;
  }

  lemma PromoteMeans(b: Board, id: Id, comment: string, c: Call)
    requires WellKeyed(b)
    ensures
      var r := Promote(b, id, comment, c);
      if Blank(id) || Blank(comment) then r == Err(InvalidArgument)
      else if id !in b.tickets then r == Err(NotFound)
      else if b.tickets[id].kind == Work then r == Err(FailedPrecondition)
      else r.Ok? && Rewritten(b, r.value, b.tickets[id].(kind := Work),
                              Comment(c.newId, SystemPromote, None, None, c.agent, c.now))
  {
    hide Blank;
  }

  /** No reference takes the ticket out of its phase; staying where it is, is an error. */
  lemma AssignMeans(b: Board, id: Id, ref: Option<string>, comment: string, c: Call)
    requires WellKeyed(b)
    ensures
      var r := Assign(b, id, ref, comment, c);
      if Blank(id) || comment == "" then r == Err(InvalidArgument)
      else if id !in b.tickets || (ref.Some? && ResolvePhase(b.phases, ref.value).None?) then r == Err(NotFound)
      else if (ref.None? && b.tickets[id].phase.None?)
              || (ref.Some? && b.tickets[id].phase == Some(ResolvePhase(b.phases, ref.value).value.id))
      then r == Err(InvalidArgument)
      else
        && r.Ok? && id in r.value.tickets
        && (ref.None? ==> r.value.tickets[id].phase == None)
        && (ref.Some? ==> r.value.tickets[id].phase == Some(ResolvePhase(b.phases, ref.value).value.id))
        && Rewritten(b, r.value, b.tickets[id].(phase := r.value.tickets[id].phase),
                     Comment(c.newId, SystemMove, None, None, c.agent, c.now))
  {
    hide Blank, ResolvePhase;
  }

  lemma AddCommentMeans(b: Board, id: Id, body: string, c: Call)
    requires WellKeyed(b)
    ensures
      var r := AddComment(b, id, body, c);
      if Blank(body) || Blank(id) then r == Err(InvalidArgument)
      else if id !in b.tickets then r == Err(NotFound)
      else r.Ok? && Rewritten(b, r.value, b.tickets[id], Comment(c.newId, User, None, None, c.agent, c.now))
  {
    hide Blank;
  }

  // ----- Create, update and delete -----

  /** next has one ticket more, t, with an empty trail. */
  ghost predicate Added(b: Board, next: Board, t: Ticket) {
    && next.phases == b.phases
    && next.tickets.Keys == b.tickets.Keys + {t.id} && next.comments.Keys == b.comments.Keys + {t.id}
    && next.tickets[t.id] == t && next.comments[t.id] == []
    && (forall x :: x in b.tickets && x != t.id ==> next.tickets[x] == b.tickets[x])
    && (forall x :: x in b.comments && x != t.id ==> next.comments[x] == b.comments[x])
  }

  lemma CreateMeans(b: Board, arg: CreateInput, c: Call)
    ensures
      var r := Create(b, arg, c);
      if Blank(arg.title) || arg.wave < 0 then r == Err(InvalidArgument)
      else if arg.phaseRef.Some? && ResolvePhase(b.phases, arg.phaseRef.value).None? then r == Err(NotFound)
      else if exists d ::
        (d in arg.dependsOn || d in arg.parallelWith) && (d !in b.tickets || b.tickets[d].kind == Idea)
      then r == Err(InvalidArgument)
      else
        && r.Ok? && c.newId in r.value.tickets
        && var t := r.value.tickets[c.newId];
          && Added(b, r.value, t) && t.id == c.newId
          && t.dependsOn == arg.dependsOn && t.parallelWith == arg.parallelWith
          && t.title == TrimSpace(arg.title) && t.kind == arg.kind && t.wave == arg.wave
          && (arg.phaseRef.None? ==> t.phase == None)
          && (arg.phaseRef.Some? ==> t.phase == Some(ResolvePhase(b.phases, arg.phaseRef.value).value.id))
          && t.column == Todo && !t.archived && t.completion.None?
          && t.createdBy == c.agent && t.createdAt == c.now
  {
    hide Blank, TrimSpace, ResolvePhase;
  }

  /** What is not named stays; what is named is replaced. */
  lemma UpdateMeans(b: Board, id: Id, arg: UpdateInput)
    requires WellKeyed(b) && Update(b, id, arg).Ok?
    ensures
      var next := Update(b, id, arg).value;
      && id in b.tickets && next.tickets.Keys == b.tickets.Keys
      && next.comments == b.comments && next.phases == b.phases
      && (forall x :: x in b.tickets && x != id ==> next.tickets[x] == b.tickets[x])
      && var t, t' := b.tickets[id], next.tickets[id];
        && t' == t.(title := t'.title, wave := t'.wave, dependsOn := t'.dependsOn, parallelWith := t'.parallelWith)
        && t'.title == (if arg.title.Some? then TrimSpace(arg.title.value) else t.title)
        && t'.wave == (if arg.wave.Some? then arg.wave.value else t.wave)
        && t'.dependsOn == (if arg.dependsOn.Some? then CompactRefs(arg.dependsOn.value) else t.dependsOn)
        && t'.parallelWith == (if arg.parallelWith.Some? then CompactRefs(arg.parallelWith.value) else t.parallelWith)
  {
    hide Blank, TrimSpace, CompactRefs, ValidRefs, Graph.ReachesFromAny;
  }

  ghost predicate BadRefs(b: Board, id: Id, refs: Option<seq<string>>) {
    refs.Some? && exists d :: d in CompactRefs(refs.value) && (d == id || d !in b.tickets || b.tickets[d].kind == Idea)
  }

  lemma UpdateErrors(b: Board, id: Id, arg: UpdateInput)
    ensures
      var r := Update(b, id, arg);
      if Blank(id) || (arg.wave.Some? && arg.wave.value < 0) then r == Err(InvalidArgument)
      else if id !in b.tickets then r == Err(NotFound)
      else
        r == Err(InvalidArgument) <==>
          || (arg.title.Some? && Blank(arg.title.value))
          || BadRefs(b, id, arg.dependsOn) || BadRefs(b, id, arg.parallelWith)
          || (arg.dependsOn.Some? && Graph.ReachesFromAny(Edges(b.tickets), CompactRefs(arg.dependsOn.value), id))
    ensures Update(b, id, arg).Ok? || Update(b, id, arg).error in {InvalidArgument, NotFound}
  {
    hide Blank, TrimSpace, CompactRefs, Graph.ReachesFromAny;
    assert forall refs :: BadRefs(b, id, refs) <==> !ValidRefs(b, id, refs);
  }

  /** The ticket, its trail and every mention of it go; all else stays. */
  lemma DeleteMeans(b: Board, id: Id)
    requires WellKeyed(b)
    ensures
      var r := Delete(b, id);
      if Blank(id) then r == Err(InvalidArgument)
      else if id !in b.tickets then r == Err(NotFound)
      else if b.tickets[id].column == Done then r == Err(FailedPrecondition)
      else
        && r.Ok? && r.value.phases == b.phases
        && r.value.tickets.Keys == b.tickets.Keys - {id} && r.value.comments.Keys == b.comments.Keys - {id}
        && (forall x :: x in r.value.comments ==> r.value.comments[x] == b.comments[x])
        && (forall x :: x in r.value.tickets ==>
              var t, t' := b.tickets[x], r.value.tickets[x];
              && t' == t.(dependsOn := t'.dependsOn, parallelWith := t'.parallelWith)
              && t'.dependsOn == RemoveId(t.dependsOn, id) && t'.parallelWith == RemoveId(t.parallelWith, id))
  {
    hide Blank, RemoveId;
  }

  // ----- Phases -----

  lemma CreatePhaseMeans(b: Board, name: string, summary: string, number: nat, c: Call)
    requires NextNumber(b.phases, number) && c.newId !in b.phases
    ensures
      var r := CreatePhase(b, name, summary, number, c);
      if Blank(name) || Utf8Len(TrimSpace(summary)) < 200 then r == Err(InvalidArgument)
      else if exists p :: p in b.phases && b.phases[p].slug == MakeSlug(TrimSpace(name)) then r == Err(AlreadyExists)
      else
        && r.Ok? && r.value.tickets == b.tickets && r.value.comments == b.comments
        && r.value.phases.Keys == b.phases.Keys + {c.newId}
        && (forall p :: p in b.phases ==> r.value.phases[p] == b.phases[p])
        && var ph := r.value.phases[c.newId];
          && ph.id == c.newId && ph.number == number
          && ph.name == TrimSpace(name) && ph.slug == MakeSlug(TrimSpace(name))
  {
    hide Blank, TrimSpace, Utf8Len, MakeSlug;
  }

  lemma UpdatePhaseMeans(b: Board, ref: string, name: Option<string>, summary: Option<string>)
    requires WellKeyed(b)
    ensures
      var r := UpdatePhase(b, ref, name, summary);
      if Blank(ref) then r == Err(InvalidArgument)
      else if ResolvePhase(b.phases, ref).None? then r == Err(NotFound)
      else if summary.Some? && Utf8Len(TrimSpace(summary.value)) < 200 then r == Err(InvalidArgument)
      else
        && var ph := ResolvePhase(b.phases, ref).value;
        && r.Ok? && r.value.tickets == b.tickets && r.value.comments == b.comments
        && ph.id in b.phases && r.value.phases.Keys == b.phases.Keys
        && (forall p :: p in b.phases && p != ph.id ==> r.value.phases[p] == b.phases[p])
        && r.value.phases[ph.id] == ph.(name := if name.Some? then TrimSpace(name.value) else ph.name)
  {
    hide Blank, TrimSpace, Utf8Len;
  }

  lemma DeletePhaseMeans(b: Board, ref: string)
    requires WellKeyed(b)
    ensures
      var r := DeletePhase(b, ref);
      if Blank(ref) then r == Err(InvalidArgument)
      else if ResolvePhase(b.phases, ref).None? then r == Err(NotFound)
      else
        var ph := ResolvePhase(b.phases, ref).value;
        if exists id :: id in b.tickets && b.tickets[id].phase == Some(ph.id) then r == Err(FailedPrecondition)
        else
          && r.Ok? && r.value.tickets == b.tickets && r.value.comments == b.comments
          && r.value.phases.Keys == b.phases.Keys - {ph.id}
          && (forall p :: p in r.value.phases ==> r.value.phases[p] == b.phases[p])
  {
    hide Blank;
  }

  // ----- The gate over steps and runs -----

  predicate UngatedMove(a: Action) {
    a.MoveAction? && !a.enforce
  }

  /** No call but a move leads into in_progress. */
  lemma OnlyMovesStart(b: Board, a: Action, c: Call, id: Id)
    requires Possible(b, a, c) && Perform(b, a, c).Ok? && !a.MoveAction?
    requires id in b.tickets && id in Perform(b, a, c).value.tickets
    ensures Perform(b, a, c).value.tickets[id].column in {b.tickets[id].column, Todo, Done}
  {
    hide Blank, TrimSpace, Utf8Len, BlockedBy, ResolvePhase, NewCommentId, RemoveId, MakeSlug, CompactRefs, ValidRefs,
      Graph.ReachesFromAny, AllWork, NextNumber;
  }

  lemma MoveIsGated(b: Board, id: Id, target: Column, comment: string, enforce: bool, c: Call, x: Id)
    requires WellKeyed(b) && Move(b, id, target, comment, enforce, c).Ok? && x in b.tickets
    ensures x in Move(b, id, target, comment, enforce, c).value.tickets
    ensures
      var t, t' := b.tickets[x], Move(b, id, target, comment, enforce, c).value.tickets[x];
      t.column != InProgress && t'.column == InProgress && enforce ==>
        t'.dependsOn == t.dependsOn && forall d :: d in t.dependsOn ==> d in b.tickets && b.tickets[d].column == Done
  {
    hide Blank, Move;
    MoveMeans(b, id, target, comment, enforce, c);
  }

  /** A ticket that enters in_progress under enforcement has every dependency done at that moment. */
  lemma GateHolds(b: Board, a: Action, c: Call, next: Board, id: Id)
    requires Step(b, a, c, next) && !UngatedMove(a) && id in b.tickets && id in next.tickets
    requires b.tickets[id].column != InProgress && next.tickets[id].column == InProgress
    ensures forall d :: d in next.tickets[id].dependsOn ==> d in b.tickets && b.tickets[d].column == Done
  {
    hide Perform, Possible, NewCommentId;
    if Perform(b, a, c).Ok? {
      if a.MoveAction? {
        PerformMove(b, a, c);
        MoveIsGated(b, a.id, a.target, a.comment, a.enforce, c, id);
      } else {
        OnlyMovesStart(b, a, c, id);
      }
    }
  }

  lemma PerformMove(b: Board, a: Action, c: Call)
    requires Possible(b, a, c) && a.MoveAction?
    ensures WellKeyed(b) && Perform(b, a, c) == Move(b, a.id, a.target, a.comment, a.enforce, c)
  {
  }

  /** So in every run that enforces dependencies. */
  lemma RunGateHolds(boards: seq<Board>, actions: seq<Action>, calls: seq<Call>, i: nat, id: Id)
    requires IsRun(boards, actions, calls) && i < |actions| && !UngatedMove(actions[i])
    requires id in boards[i].tickets && id in boards[i + 1].tickets
    requires boards[i].tickets[id].column != InProgress && boards[i + 1].tickets[id].column == InProgress
    ensures forall d :: d in boards[i + 1].tickets[id].dependsOn ==>
      d in boards[i].tickets && boards[i].tickets[d].column == Done
  {
    hide Step;
    assert StepAt(boards, actions, calls, i);
    GateHolds(boards[i], actions[i], calls[i], boards[i + 1], id);
  }

  /** A new ticket is blocked by each of its dependencies that is not done, and only by those. */
  lemma NewTicketIsBlocked(b: Board, arg: CreateInput, c: Call)
    requires Create(b, arg, c).Ok? && c.newId !in b.tickets
    ensures
      var next := Create(b, arg, c).value;
      && c.newId in next.tickets
      && (BlockedBy(next.tickets, next.tickets[c.newId].dependsOn) == [] <==>
          forall d :: d in arg.dependsOn ==> d in b.tickets && b.tickets[d].column == Done)
  {
    hide Blank, TrimSpace, ResolvePhase, BlockedBy;
    var next := Create(b, arg, c).value;
    CreateMeans(b, arg, c);
    NothingBlocks(next.tickets, arg.dependsOn);
  }
}
