/** What every run of a project keeps, and what follows from it. */
module BoardLaws {
  import opened Common
  import opened Text
  import opened Board
  import opened AuditTrail
  import Graph

  // ----- The invariant -----

  predicate Names(t: Ticket, d: Id) {
    d in t.dependsOn || d in t.parallelWith
  }

  /** Both edge lists name live work tickets only: no dangling id, no idea. */
  ghost predicate EdgesLive(tickets: map<Id, Ticket>) {
    forall id, d :: id in tickets && Names(tickets[id], d) ==> IsWork(tickets, d)
  }

  ghost predicate PhasesKept(b: Board) {
    && (forall id :: id in b.tickets && b.tickets[id].phase.Some? ==> b.tickets[id].phase.value in b.phases)
    && (forall p, q :: p in b.phases && q in b.phases && p != q ==>
          b.phases[p].slug != b.phases[q].slug && b.phases[p].number != b.phases[q].number)
  }

  ghost predicate TrailsExplain(tickets: map<Id, Ticket>, comments: map<Id, seq<Comment>>)
    requires comments.Keys == tickets.Keys
  {
    forall id :: id in tickets ==> Explains(comments[id], tickets[id])
  }

  /** done and completion fields go together, and the stored texts are trimmed. */
  predicate CompletionFits(t: Ticket) {
    && (t.column == Done <==> t.completion.Some?)
    && (t.completion.Some? ==> TrimmedSections(t.completion.value.sections))
  }

  ghost predicate CompletionsKept(tickets: map<Id, Ticket>) {
    forall id :: id in tickets ==> CompletionFits(tickets[id])
  }

  ghost predicate NamedIds(tickets: map<Id, Ticket>) {
    forall id :: id in tickets ==> !Blank(id)
  }

  ghost predicate Inv(b: Board) {
    && WellKeyed(b)
    && NamedIds(b.tickets)
    && EdgesLive(b.tickets)
    && Graph.Acyclic(Edges(b.tickets))
    && PhasesKept(b)
    && TrailsExplain(b.tickets, b.comments)
    && CompletionsKept(b.tickets)
  }

  /** What the invariant says of one ticket, apart from the graph. */
  lemma TicketFacts(b: Board, id: Id)
    requires Inv(b) && id in b.tickets
    ensures !Blank(id) && b.tickets[id].id == id && id in b.comments
    ensures CompletionFits(b.tickets[id]) && Explains(b.comments[id], b.tickets[id])
    ensures b.tickets[id].phase.Some? ==> b.tickets[id].phase.value in b.phases
  {
    hide Blank, CompletionFits, Explains, EdgesLive, Graph.Acyclic;
  }

  lemma InvKeyed(b: Board)
    requires Inv(b)
    ensures WellKeyed(b)
  {
    hide NamedIds, EdgesLive, Graph.Acyclic, PhasesKept, TrailsExplain, CompletionsKept;
  }

  // ----- Refs and lists -----

  lemma {:induction false} InRemoveId(ids: seq<Id>, target: Id, x: Id)
    ensures x in RemoveId(ids, target) <==> x in ids && x != target
  {
    if ids != [] {
      var n := |ids| - 1;
      InRemoveId(ids[..n], target, x);
      assert ids == ids[..n] + [ids[n]];
    }
  }

  lemma {:induction false} RemoveAbsent(ids: seq<Id>, target: Id)
    requires target !in ids
    ensures RemoveId(ids, target) == ids
  {
    if ids != [] {
      var n := |ids| - 1;
      RemoveAbsent(ids[..n], target);
      assert ids == ids[..n] + [ids[n]];
    }
  }

  lemma {:induction false} InBlockedBy(tickets: map<Id, Ticket>, deps: seq<Id>, x: Id)
    ensures x in BlockedBy(tickets, deps) <==> x in deps && IsOpen(tickets, x)
  {
    if deps != [] {
      var n := |deps| - 1;
      InBlockedBy(tickets, deps[..n], x);
      assert deps == deps[..n] + [deps[n]];
    }
  }

  // ----- What a call may do to a ticket that survives it -----

  /** What a call may do to one surviving ticket: leave its trail and status alone, or append one
      entry that replays onto the new status. */
  ghost predicate TicketStep(trail: seq<Comment>, t: Ticket, trail': seq<Comment>, t': Ticket) {
    && (t.column == Done ==> t'.completion == t.completion)
    && ((trail' == trail && StatusOf(t') == StatusOf(t))
        || (trail' != [] && trail' == trail + [trail'[|trail'| - 1]]
            && var c := trail'[|trail'| - 1];
               && ReplayOne(StatusOf(t), c) == Some(StatusOf(t'))
               && (c.kind != SystemPromote ==> t'.kind == t.kind)))
  }

  ghost predicate EveryTicketSteps(b: Board, next: Board) {
    && WellKeyed(b) && WellKeyed(next)
    && forall id :: id in b.tickets && id in next.tickets ==>
         TicketStep(b.comments[id], b.tickets[id], next.comments[id], next.tickets[id])
  }

  lemma NothingSteps(b: Board)
    requires WellKeyed(b)
    ensures EveryTicketSteps(b, b)
  {
  }

  lemma RewriteSteps(b: Board, t: Ticket, c: Comment)
    requires WellKeyed(b) && t.id in b.tickets
    requires ReplayOne(StatusOf(b.tickets[t.id]), c) == Some(StatusOf(t))
    requires c.kind != SystemPromote ==> t.kind == b.tickets[t.id].kind
    requires b.tickets[t.id].column == Done ==> t.completion == b.tickets[t.id].completion
    ensures EveryTicketSteps(b, RewriteWithComment(b, t, c))
  {
    var trail := b.comments[t.id] + [c];
    assert trail[|trail| - 1] == c;
  }

  // ----- Every transition keeps the invariant -----

  /** Replacing or adding one ticket keeps the edges live when its own edges are and it does not
      stop being work. */
  lemma PutKeepsEdgesLive(tickets: map<Id, Ticket>, t: Ticket)
    requires EdgesLive(tickets)
    requires forall d :: Names(t, d) ==> IsWork(tickets, d)
    requires t.id in tickets ==> tickets[t.id].kind == Idea || t.kind == Work
    ensures EdgesLive(tickets[t.id := t])
  {
    var tickets' := tickets[t.id := t];
    forall id, d | id in tickets' && Names(tickets'[id], d) ensures IsWork(tickets', d) {
      assert IsWork(tickets, d);
    }
  }

  lemma PutKeepsTrails(
      tickets: map<Id, Ticket>, comments: map<Id, seq<Comment>>, t: Ticket, trail: seq<Comment>)
    requires comments.Keys == tickets.Keys && TrailsExplain(tickets, comments) && Explains(trail, t)
    ensures TrailsExplain(tickets[t.id := t], comments[t.id := trail])
  {
  }

  /** One ticket replaced or added together with its trail. */
  function Put(b: Board, t: Ticket, trail: seq<Comment>): Board {
    Board(b.tickets[t.id := t], b.comments[t.id := trail], b.phases)
  }

  ghost predicate MayPut(b: Board, t: Ticket, trail: seq<Comment>) {
    && !Blank(t.id)
    && (forall d :: Names(t, d) ==> IsWork(b.tickets, d))
    && (t.id in b.tickets ==> b.tickets[t.id].kind == Idea || t.kind == Work)
    && Graph.Acyclic(Edges(b.tickets)[t.id := t.dependsOn])
    && (t.phase.Some? ==> t.phase.value in b.phases)
    && CompletionFits(t)
    && Explains(trail, t)
  }

  ghost predicate ShapeKept(b: Board) {
    WellKeyed(b) && NamedIds(b.tickets) && PhasesKept(b) && CompletionsKept(b.tickets)
  }

  lemma PutKeepsShape(b: Board, t: Ticket, trail: seq<Comment>)
    requires ShapeKept(b) && !Blank(t.id) && (t.phase.Some? ==> t.phase.value in b.phases) && CompletionFits(t)
    ensures ShapeKept(Put(b, t, trail))
  {
    hide Blank, CompletionFits;
    assert WellKeyed(Put(b, t, trail)) && NamedIds(Put(b, t, trail).tickets) by {
      hide PhasesKept, CompletionsKept;
    }
    PutKeepsPhases(b, t, trail);
  }

  lemma PutKeepsPhases(b: Board, t: Ticket, trail: seq<Comment>)
    requires PhasesKept(b) && (t.phase.Some? ==> t.phase.value in b.phases)
    ensures PhasesKept(Put(b, t, trail))
  {
  }

  lemma PutEdges(tickets: map<Id, Ticket>, t: Ticket)
    ensures Edges(tickets[t.id := t]) == Edges(tickets)[t.id := t.dependsOn]
  {
  }

  lemma PutKeepsInv(b: Board, t: Ticket, trail: seq<Comment>)
    requires Inv(b) && MayPut(b, t, trail)
    ensures Inv(Put(b, t, trail))
  {
    hide Blank, EdgesLive, TrailsExplain, Graph.Acyclic, Explains, CompletionFits, ShapeKept;
    PutIsShaped(b, t, trail);
    PutEdges(b.tickets, t);
    PutKeepsEdgesLive(b.tickets, t);
    PutKeepsTrails(b.tickets, b.comments, t, trail);
  }

  lemma PutIsShaped(b: Board, t: Ticket, trail: seq<Comment>)
    requires Inv(b) && MayPut(b, t, trail)
    ensures WellKeyed(Put(b, t, trail)) && NamedIds(Put(b, t, trail).tickets)
    ensures PhasesKept(Put(b, t, trail)) && CompletionsKept(Put(b, t, trail).tickets)
  {
    hide Blank, EdgesLive, TrailsExplain, Graph.Acyclic, Explains, CompletionFits, WellKeyed, NamedIds, PhasesKept,
      CompletionsKept;
    PutKeepsShape(b, t, trail);
  }

  ghost predicate RewriteAllowed(b: Board, t: Ticket, c: Comment) {
    && t.id in b.tickets
    && var before := b.tickets[t.id];
       && t.dependsOn == before.dependsOn && t.parallelWith == before.parallelWith
       && (if c.kind == SystemPromote then before.kind == Idea && t.kind == Work else t.kind == before.kind)
       && (t.phase.Some? ==> t.phase.value in b.phases)
       && CompletionFits(t)
       && ReplayOne(StatusOf(before), c) == Some(StatusOf(t))
       && (before.column == Done ==> t.completion == before.completion)
  }

  lemma MayRewrite(b: Board, t: Ticket, c: Comment)
    requires Inv(b) && RewriteAllowed(b, t, c)
    ensures MayPut(b, t, b.comments[t.id] + [c])
  {
    hide Blank, Explains, CompletionFits, ReplayOne, Graph.Acyclic;
    var before := b.tickets[t.id];
    TicketFacts(b, t.id);
    assert forall d :: Names(t, d) ==> Names(before, d);
    SameEdges(b.tickets, t.id);
    ExplainsAppend(b.comments[t.id], before, c, t);
  }

  lemma SameEdges(tickets: map<Id, Ticket>, id: Id)
    requires id in tickets
    ensures Edges(tickets)[id := tickets[id].dependsOn] == Edges(tickets)
  {
  }

  /** A rewrite that leaves edges and kind alone, or turns an idea into work,
      and whose new comment the trail accepts. */
  lemma RewriteKeepsInv(b: Board, t: Ticket, c: Comment)
    requires Inv(b) && RewriteAllowed(b, t, c)
    ensures Inv(RewriteWithComment(b, t, c))
    ensures EveryTicketSteps(b, RewriteWithComment(b, t, c))
  {
    hide Blank, Explains, CompletionFits, ReplayOne, EveryTicketSteps, MayPut;
    TicketFacts(b, t.id);
    MayRewrite(b, t, c);
    PutKeepsInv(b, t, b.comments[t.id] + [c]);
    RewriteSteps(b, t, c);
  }

  /** A new ticket closes no cycle: nothing names it yet. */
  lemma CreateKeepsAcyclic(tickets: map<Id, Ticket>, t: Ticket)
    requires EdgesLive(tickets) && Graph.Acyclic(Edges(tickets))
    requires t.id !in tickets && AllWork(tickets, t.dependsOn)
    ensures Graph.Acyclic(Edges(tickets[t.id := t]))
  {
    var g := Edges(tickets);
    forall x ensures Graph.IsEdge(g, x, t.id) ==> IsWork(tickets, t.id) {
      assert Graph.IsEdge(g, x, t.id) ==> Names(tickets[x], t.id);
    }
    forall d | d in t.dependsOn ensures !Graph.Reaches(g, d, t.id) {
      assert IsWork(tickets, d);
      if Graph.Reaches(g, d, t.id) {
        Graph.ReachedHasEdgeIn(g, d, t.id);
      }
    }
    Graph.UpdateAcyclicIff(g, t.id, t.dependsOn);
    assert Edges(tickets[t.id := t]) == g[t.id := t.dependsOn];
  }

  lemma CreateKeepsInv(b: Board, arg: CreateInput, c: Call)
    requires Inv(b) && !Blank(c.newId) && c.newId !in b.tickets && Create(b, arg, c).Ok?
    ensures Inv(Create(b, arg, c).value)
    ensures EveryTicketSteps(b, Create(b, arg, c).value)
  {
    hide Blank, TrimSpace, EdgesLive, Graph.Acyclic, PhasesKept, TrailsExplain, NamedIds, CompletionsKept, AllWork,
      MayPut;
    var t := Create(b, arg, c).value.tickets[c.newId];
    CreateIsPut(b, arg, c, t);
    MayCreate(b, t);
    PutKeepsInv(b, t, []);
    AddingSteps(b, t);
  }

  /** What a successful create puts on the board. */
  lemma CreateIsPut(b: Board, arg: CreateInput, c: Call, t: Ticket)
    requires WellKeyed(b) && Create(b, arg, c).Ok? && t == Create(b, arg, c).value.tickets[c.newId]
    ensures Create(b, arg, c).value == Put(b, t, []) && t.id == c.newId
    ensures AllWork(b.tickets, t.dependsOn) && AllWork(b.tickets, t.parallelWith)
    ensures t.column == Todo && !t.archived && t.completion.None? && (t.phase.Some? ==> t.phase.value in b.phases)
  {
    hide Blank, TrimSpace, AllWork;
  }

  lemma AddingSteps(b: Board, t: Ticket)
    requires WellKeyed(b) && t.id !in b.tickets
    ensures EveryTicketSteps(b, Put(b, t, []))
  {
  }

  lemma MayCreate(b: Board, t: Ticket)
    requires Inv(b) && !Blank(t.id) && t.id !in b.tickets
    requires AllWork(b.tickets, t.dependsOn) && AllWork(b.tickets, t.parallelWith)
    requires t.column == Todo && !t.archived && t.completion.None? && (t.phase.Some? ==> t.phase.value in b.phases)
    ensures MayPut(b, t, [])
  {
    hide Blank, Graph.Acyclic, PhasesKept, TrailsExplain, NamedIds, CompletionsKept, EdgesLive, Explains;
    CreateKeepsAcyclic(b.tickets, t);
    PutEdges(b.tickets, t);
    BornExplained(t);
  }

  lemma BornExplained(t: Ticket)
    requires t.column == Todo && !t.archived
    ensures Explains([], t)
  {
  }

  /** An accepted edit leaves the graph acyclic because the search it passed is exact. */
  lemma UpdateKeepsInv(b: Board, id: Id, arg: UpdateInput)
    requires Inv(b) && Update(b, id, arg).Ok?
    ensures Inv(Update(b, id, arg).value)
    ensures EveryTicketSteps(b, Update(b, id, arg).value)
  {
    hide Blank, TrimSpace, EdgesLive, Graph.Acyclic, Graph.ReachesFromAny, PhasesKept, TrailsExplain, NamedIds,
      CompletionsKept, CompactRefs, MayPut, ValidRefs, EveryTicketSteps;
    var t := Update(b, id, arg).value.tickets[id];
    MayEdit(b, id, arg, t);
    PutKeepsInv(b, t, b.comments[id]);
    PutSameTrailSteps(b, t);
  }

  lemma PutSameTrailSteps(b: Board, t: Ticket)
    requires WellKeyed(b) && t.id in b.tickets && StatusOf(t) == StatusOf(b.tickets[t.id])
    requires t.completion == b.tickets[t.id].completion
    ensures Put(b, t, b.comments[t.id]) == Rewrite(b, t) && EveryTicketSteps(b, Rewrite(b, t))
  {
    assert b.comments[t.id := b.comments[t.id]] == b.comments;
  }

  lemma MayEdit(b: Board, id: Id, arg: UpdateInput, t: Ticket)
    requires Inv(b) && id in b.tickets && ValidRefs(b, id, arg.dependsOn) && ValidRefs(b, id, arg.parallelWith)
    requires arg.dependsOn.Some? ==> !Graph.ReachesFromAny(Edges(b.tickets), CompactRefs(arg.dependsOn.value), id)
    requires t == b.tickets[id].(
      title := t.title, wave := t.wave,
      dependsOn := if arg.dependsOn.Some? then CompactRefs(arg.dependsOn.value) else b.tickets[id].dependsOn,
      parallelWith := if arg.parallelWith.Some? then CompactRefs(arg.parallelWith.value)
                      else b.tickets[id].parallelWith)
    ensures MayPut(b, t, b.comments[id])
  {
    hide Blank, Explains, CompletionFits, CompactRefs, Graph.Acyclic, Graph.ReachesFromAny, PhasesKept, TrailsExplain,
      NamedIds, CompletionsKept;
    TicketFacts(b, id);
    if arg.dependsOn.Some? {
      Graph.UpdateAcyclicIff(Edges(b.tickets), id, t.dependsOn);
    } else {
      SameEdges(b.tickets, id);
    }
    forall d | Names(t, d) ensures IsWork(b.tickets, d) {
      assert Names(b.tickets[id], d) ==> IsWork(b.tickets, d);
    }
    SameStatusFits(b.comments[id], b.tickets[id], t);
  }

  lemma SameStatusFits(trail: seq<Comment>, t: Ticket, t': Ticket)
    requires Explains(trail, t) && CompletionFits(t) && StatusOf(t') == StatusOf(t) && t'.completion == t.completion
    ensures Explains(trail, t') && CompletionFits(t')
  {
  }

  /** The rejected edits are exactly the ones that would close a cycle, or name the ticket itself,
      a missing ticket or an idea. */
  lemma UpdateRejectsOnlyCycles(b: Board, id: Id, arg: UpdateInput)
    requires Inv(b) && id in b.tickets && arg.dependsOn.Some?
    requires arg.wave.Some? ==> arg.wave.value >= 0
    requires arg.title.Some? ==> !Blank(arg.title.value)
    requires ValidRefs(b, id, arg.dependsOn) && ValidRefs(b, id, arg.parallelWith)
    ensures Update(b, id, arg).Ok? <==> Graph.Acyclic(Edges(b.tickets)[id := CompactRefs(arg.dependsOn.value)])
  {
    hide Blank, TrimSpace, CompactRefs, EdgesLive, Graph.Acyclic, Graph.ReachesFromAny, PhasesKept, TrailsExplain,
      CompletionsKept, ValidRefs;
    Graph.UpdateAcyclicIff(Edges(b.tickets), id, CompactRefs(arg.dependsOn.value));
  }

  ghost function Cascade(tickets: map<Id, Ticket>, id: Id): map<Id, Ticket> {
    map x | x in tickets && x != id :: Unlink(tickets[x], id)
  }

  lemma UnlinkNames(t: Ticket, id: Id, d: Id)
    ensures Names(Unlink(t, id), d) <==> Names(t, d) && d != id
    ensures d in Unlink(t, id).dependsOn <==> d in t.dependsOn && d != id
  {
    InRemoveId(t.dependsOn, id, d);
    InRemoveId(t.parallelWith, id, d);
  }

  /** The cascade leaves no dangling id and no new edge. */
  lemma CascadeKeepsGraph(tickets: map<Id, Ticket>, id: Id)
    requires EdgesLive(tickets) && Graph.Acyclic(Edges(tickets))
    ensures EdgesLive(Cascade(tickets, id)) && Graph.Acyclic(Edges(Cascade(tickets, id)))
  {
    var after := Cascade(tickets, id);
    forall x, d | x in after && Names(after[x], d) ensures IsWork(after, d) {
      UnlinkNames(tickets[x], id, d);
      assert IsWork(tickets, d);
    }
    forall x, d | Graph.IsEdge(Edges(after), x, d) ensures Graph.IsEdge(Edges(tickets), x, d) {
      UnlinkNames(tickets[x], id, d);
    }
    Graph.FewerEdgesStayAcyclic(Edges(tickets), Edges(after));
  }

  lemma CascadeKeepsTrails(tickets: map<Id, Ticket>, comments: map<Id, seq<Comment>>, id: Id)
    requires comments.Keys == tickets.Keys && TrailsExplain(tickets, comments)
    ensures (comments - {id}).Keys == Cascade(tickets, id).Keys
    ensures TrailsExplain(Cascade(tickets, id), comments - {id})
  {
    forall x | x in Cascade(tickets, id) ensures Explains((comments - {id})[x], Cascade(tickets, id)[x]) {
      assert Explains(comments[x], tickets[x]);
    }
  }

  lemma DeleteKeepsInv(b: Board, id: Id)
    requires Inv(b) && Delete(b, id).Ok?
    ensures Inv(Delete(b, id).value)
    ensures EveryTicketSteps(b, Delete(b, id).value)
  {
    hide Delete, EdgesLive, Graph.Acyclic, TrailsExplain, WellKeyed, NamedIds, PhasesKept, CompletionsKept,
      EveryTicketSteps;
    DeleteIsCascade(b, id);
    DeleteKeepsShape(b, id);
    CascadeKeepsGraph(b.tickets, id);
    InvKeyed(b);
    DeleteKeepsTrails(b, id);
    DeleteSteps(b, id);
  }

  lemma DeleteKeepsTrails(b: Board, id: Id)
    requires WellKeyed(b) && TrailsExplain(b.tickets, b.comments)
    ensures (b.comments - {id}).Keys == Cascade(b.tickets, id).Keys
    ensures TrailsExplain(Cascade(b.tickets, id), b.comments - {id})
  {
    hide TrailsExplain;
    CascadeKeepsTrails(b.tickets, b.comments, id);
  }

  lemma DeleteIsCascade(b: Board, id: Id)
    requires Delete(b, id).Ok?
    ensures Delete(b, id).value == Board(Cascade(b.tickets, id), b.comments - {id}, b.phases)
  {
    hide Blank, Unlink;
  }

  lemma UnlinkKeeps(t: Ticket, id: Id)
    ensures Unlink(t, id).id == t.id && Unlink(t, id).phase == t.phase && StatusOf(Unlink(t, id)) == StatusOf(t)
    ensures Unlink(t, id).completion == t.completion && (CompletionFits(t) ==> CompletionFits(Unlink(t, id)))
  {
  }

  lemma DeleteKeepsShape(b: Board, id: Id)
    requires ShapeKept(b)
    ensures ShapeKept(Board(Cascade(b.tickets, id), b.comments - {id}, b.phases))
  {
    hide Blank, Unlink, CompletionFits;
    forall x | x in b.tickets
      ensures Unlink(b.tickets[x], id).id == x && Unlink(b.tickets[x], id).phase == b.tickets[x].phase
      ensures CompletionFits(Unlink(b.tickets[x], id))
    {
      UnlinkKeeps(b.tickets[x], id);
    }
  }

  lemma DeleteSteps(b: Board, id: Id)
    requires WellKeyed(b)
    ensures EveryTicketSteps(b, Board(Cascade(b.tickets, id), b.comments - {id}, b.phases))
  {
    hide Unlink, StatusOf;
    forall x | x in b.tickets
      ensures Unlink(b.tickets[x], id).id == x && StatusOf(Unlink(b.tickets[x], id)) == StatusOf(b.tickets[x])
      ensures Unlink(b.tickets[x], id).completion == b.tickets[x].completion
    {
      UnlinkKeeps(b.tickets[x], id);
    }
  }

  lemma PhaseStepsKeepInv(b: Board, phases: map<Id, Phase>)
    requires Inv(b) && forall p :: p in phases ==> phases[p].id == p
    requires PhasesKept(b.(phases := phases))
    ensures Inv(b.(phases := phases))
    ensures EveryTicketSteps(b, b.(phases := phases))
  {
    hide PhasesKept, NamedIds, EdgesLive, Graph.Acyclic, TrailsExplain, CompletionsKept;
  }

  lemma MoveKeepsInv(b: Board, id: Id, target: Column, comment: string, enforce: bool, c: Call)
    requires Inv(b) && Move(b, id, target, comment, enforce, c).Ok?
    ensures Inv(Move(b, id, target, comment, enforce, c).value)
    ensures EveryTicketSteps(b, Move(b, id, target, comment, enforce, c).value)
  {
    hide Inv, Blank, BlockedBy, TrimmedSections, EveryTicketSteps, Explains, ResolvePhase, TrimSpace, Utf8Len;
    InvKeyed(b);
    TicketFacts(b, id);
    var t := b.tickets[id];
    RewriteKeepsInv(b, t.(column := target),
                    Comment(c.newId, SystemMove, Some(t.column), Some(target), c.agent, c.now));
  }

  lemma CompleteKeepsInv(b: Board, id: Id, testing: string, work: string, learnings: string, c: Call)
    requires Inv(b) && Complete(b, id, testing, work, learnings, c).Ok?
    ensures Inv(Complete(b, id, testing, work, learnings, c).value)
    ensures EveryTicketSteps(b, Complete(b, id, testing, work, learnings, c).value)
  {
    hide Inv, Blank, BlockedBy, Trimmed, EveryTicketSteps, Explains, ResolvePhase, TrimSpace, Utf8Len;
    InvKeyed(b);
    TicketFacts(b, id);
    TrimSpaceTrims(testing);
    TrimSpaceTrims(work);
    TrimSpaceTrims(learnings);
    RewriteKeepsInv(b, Complete(b, id, testing, work, learnings, c).value.tickets[id], Entry(c, SystemCompletion));
  }

  lemma FlipArchiveKeepsInv(b: Board, id: Id, comment: string, want: bool, c: Call)
    requires Inv(b) && FlipArchive(b, id, comment, want, c).Ok?
    ensures Inv(FlipArchive(b, id, comment, want, c).value)
    ensures EveryTicketSteps(b, FlipArchive(b, id, comment, want, c).value)
  {
    hide Inv, Blank, BlockedBy, TrimmedSections, EveryTicketSteps, Explains, ResolvePhase, TrimSpace, Utf8Len;
    InvKeyed(b);
    TicketFacts(b, id);
    RewriteKeepsInv(b, b.tickets[id].(archived := want), Entry(c, if want then SystemArchive else SystemUnarchive));
  }

  lemma PromoteKeepsInv(b: Board, id: Id, comment: string, c: Call)
    requires Inv(b) && Promote(b, id, comment, c).Ok?
    ensures Inv(Promote(b, id, comment, c).value)
    ensures EveryTicketSteps(b, Promote(b, id, comment, c).value)
  {
    hide Inv, Blank, BlockedBy, TrimmedSections, EveryTicketSteps, Explains, ResolvePhase, TrimSpace, Utf8Len;
    InvKeyed(b);
    TicketFacts(b, id);
    RewriteKeepsInv(b, b.tickets[id].(kind := Work), Entry(c, SystemPromote));
  }

  lemma ResolvedIsLive(b: Board, ref: string)
    requires WellKeyed(b) && ResolvePhase(b.phases, ref).Some?
    ensures ResolvePhase(b.phases, ref).value.id in b.phases
    ensures b.phases[ResolvePhase(b.phases, ref).value.id] == ResolvePhase(b.phases, ref).value
  {
  }

  lemma AssignKeepsInv(b: Board, id: Id, phaseRef: Option<string>, comment: string, c: Call)
    requires Inv(b) && Assign(b, id, phaseRef, comment, c).Ok?
    ensures Inv(Assign(b, id, phaseRef, comment, c).value)
    ensures EveryTicketSteps(b, Assign(b, id, phaseRef, comment, c).value)
  {
    hide Inv, Blank, BlockedBy, TrimmedSections, EveryTicketSteps, Explains, ResolvePhase, TrimSpace, Utf8Len;
    InvKeyed(b);
    TicketFacts(b, id);
    if phaseRef.Some? {
      ResolvedIsLive(b, phaseRef.value);
    }
    RewriteKeepsInv(b, Assign(b, id, phaseRef, comment, c).value.tickets[id], Entry(c, SystemMove));
  }

  lemma AddCommentKeepsInv(b: Board, id: Id, body: string, c: Call)
    requires Inv(b) && AddComment(b, id, body, c).Ok?
    ensures Inv(AddComment(b, id, body, c).value)
    ensures EveryTicketSteps(b, AddComment(b, id, body, c).value)
  {
    hide Inv, Blank, BlockedBy, TrimmedSections, EveryTicketSteps, Explains, ResolvePhase, TrimSpace, Utf8Len;
    InvKeyed(b);
    TicketFacts(b, id);
    RewriteKeepsInv(b, b.tickets[id], Entry(c, User));
  }

  lemma CreatePhaseKeepsInv(b: Board, name: string, summary: string, number: nat, c: Call)
    requires Inv(b) && c.newId !in b.phases
    requires NextNumber(b.phases, number) && CreatePhase(b, name, summary, number, c).Ok?
    ensures Inv(CreatePhase(b, name, summary, number, c).value)
    ensures EveryTicketSteps(b, CreatePhase(b, name, summary, number, c).value)
  {
    hide Blank, TrimSpace, Utf8Len, NamedIds, EdgesLive, Graph.Acyclic, TrailsExplain, CompletionsKept,
      EveryTicketSteps, MakeSlug;
    PhaseStepsKeepInv(b, CreatePhase(b, name, summary, number, c).value.phases);
  }

  lemma UpdatePhaseKeepsInv(b: Board, ref: string, name: Option<string>, summary: Option<string>)
    requires Inv(b) && UpdatePhase(b, ref, name, summary).Ok?
    ensures Inv(UpdatePhase(b, ref, name, summary).value)
    ensures EveryTicketSteps(b, UpdatePhase(b, ref, name, summary).value)
  {
    hide Blank, TrimSpace, Utf8Len, NamedIds, EdgesLive, Graph.Acyclic, TrailsExplain, CompletionsKept,
      EveryTicketSteps, MakeSlug;
    PhaseStepsKeepInv(b, UpdatePhase(b, ref, name, summary).value.phases);
  }

  lemma DeletePhaseKeepsInv(b: Board, ref: string)
    requires Inv(b) && DeletePhase(b, ref).Ok?
    ensures Inv(DeletePhase(b, ref).value)
    ensures EveryTicketSteps(b, DeletePhase(b, ref).value)
  {
    hide Blank, TrimSpace, Utf8Len, NamedIds, EdgesLive, Graph.Acyclic, TrailsExplain, CompletionsKept,
      EveryTicketSteps, MakeSlug;
    PhaseStepsKeepInv(b, DeletePhase(b, ref).value.phases);
  }

  /** The heart of the matter: no call, successful or not, breaks the invariant. */
  lemma StepKeepsInv(b: Board, a: Action, c: Call, next: Board)
    requires Inv(b) && Step(b, a, c, next)
    ensures Inv(next)
    ensures EveryTicketSteps(b, next)
  {
    hide Inv, EveryTicketSteps, NewCommentId, Blank, NextNumber, Create, Update, Move, Complete, FlipArchive, Promote,
      Assign, AddComment, Delete, CreatePhase, UpdatePhase, DeletePhase;
    InvKeyed(b);
    if Perform(b, a, c).Err? {
      NothingSteps(b);
    } else {
      match a
      case CreateAction(arg) => CreateKeepsInv(b, arg, c);
      case UpdateAction(id, edit) => UpdateKeepsInv(b, id, edit);
      case MoveAction(id, target, comment, enforce) => MoveKeepsInv(b, id, target, comment, enforce, c);
      case CompleteAction(id, testing, work, learnings) => CompleteKeepsInv(b, id, testing, work, learnings, c);
      case FlipArchiveAction(id, comment, want) => FlipArchiveKeepsInv(b, id, comment, want, c);
      case PromoteAction(id, comment) => PromoteKeepsInv(b, id, comment, c);
      case AssignAction(id, phaseRef, comment) => AssignKeepsInv(b, id, phaseRef, comment, c);
      case CommentAction(id, body) => AddCommentKeepsInv(b, id, body, c);
      case DeleteAction(id) => DeleteKeepsInv(b, id);
      case CreatePhaseAction(name, summary, number) => CreatePhaseKeepsInv(b, name, summary, number, c);
      case UpdatePhaseAction(ref, name, summary) => UpdatePhaseKeepsInv(b, ref, name, summary);
      case DeletePhaseAction(ref) => DeletePhaseKeepsInv(b, ref);
    }
  }

  /** Every board of every run: the dependency graph is acyclic, every edge names a live work ticket,
      every trail explains its ticket, every phase reference is live. */
  lemma {:induction false} RunKeepsInv(boards: seq<Board>, actions: seq<Action>, calls: seq<Call>, i: nat)
    requires IsRun(boards, actions, calls) && i < |boards|
    ensures Inv(boards[i])
  {
    hide Inv, Step, EveryTicketSteps;
    if i == 0 {
      EmptyBoardInv();
    } else {
      hide StepAt;
      RunKeepsInv(boards, actions, calls, i - 1);
      StepOfRun(boards, actions, calls, i - 1);
      StepKeepsInv(boards[i - 1], actions[i - 1], calls[i - 1], boards[i]);
    }
  }

  lemma EmptyBoardInv()
    ensures Inv(EMPTY_BOARD)
  {
    forall p | |p| >= 2 ensures !Graph.IsPath(Edges(EMPTY_BOARD.tickets), p) {
      assert !Graph.IsEdge(Edges(EMPTY_BOARD.tickets), p[0], p[1]);
    }
  }

  lemma StepOfRun(boards: seq<Board>, actions: seq<Action>, calls: seq<Call>, i: nat)
    requires IsRun(boards, actions, calls) && i < |actions|
    ensures |boards| == |actions| + 1 && |calls| == |actions|
    ensures Step(boards[i], actions[i], calls[i], boards[i + 1])
  {
    hide Step;
    assert StepAt(boards, actions, calls, i);
  }

  // ----- Comment ids -----

  /** No comment id is blank, and no two comments of the project share one. */
  ghost predicate CommentIdsSound(comments: map<Id, seq<Comment>>) {
    && (forall t, x :: t in comments && x in comments[t] ==> !Blank(x.id))
    && (forall t, i, j :: t in comments && 0 <= i < j < |comments[t]| ==> comments[t][i].id != comments[t][j].id)
    && (forall t, u, x, y ::
      t in comments && u in comments && x in comments[t] && y in comments[u] && x.id == y.id ==> t == u)
  }

  lemma CommentIdsStay(comments: map<Id, seq<Comment>>, t: Id, x: Comment)
    requires CommentIdsSound(comments) && t in comments && !Blank(x.id) && NewCommentId(comments, x.id)
    ensures CommentIdsSound(comments[t := comments[t] + [x]])
  {
    hide Blank;
    var next: map<Id, seq<Comment>> := comments[t := comments[t] + [x]];
    forall i | 0 <= i < |comments[t]| ensures comments[t][i].id != x.id {
      assert comments[t][i] in comments[t];
    }
    assert forall u, i, j :: u in next && 0 <= i < j < |next[u]| ==> next[u][i].id != next[u][j].id;
    forall u, v, y, z | u in next && v in next && y in next[u] && z in next[v] && y.id == z.id ensures u == v {
      AppendedOne(comments, t, x, u, y);
      AppendedOne(comments, t, x, v, z);
    }
    forall u, y | u in next && y in next[u] ensures !Blank(y.id) {
      AppendedOne(comments, t, x, u, y);
    }
  }

  lemma AppendedOne(comments: map<Id, seq<Comment>>, t: Id, x: Comment, u: Id, y: Comment)
    requires t in comments && u in comments[t := comments[t] + [x]] && y in comments[t := comments[t] + [x]][u]
    ensures (u in comments && y in comments[u]) || (u == t && y == x)
  {
  }

  /** Fewer comments, or the same. */
  lemma CommentIdsDrop(comments: map<Id, seq<Comment>>, next: map<Id, seq<Comment>>)
    requires CommentIdsSound(comments)
    requires forall t :: t in next ==> next[t] == [] || (t in comments && next[t] == comments[t])
    ensures CommentIdsSound(next)
  {
    hide Blank;
  }

  /** What a call does to the trails: one comment with the minted id is appended to one trail, or
      trails are dropped or begun. */
  ghost predicate TrailsStep(comments: map<Id, seq<Comment>>, next: map<Id, seq<Comment>>, id: Id) {
    || (forall t :: t in next ==> next[t] == [] || (t in comments && next[t] == comments[t]))
    || (exists t, x: Comment :: t in comments && x.id == id && next == comments[t := comments[t] + [x]])
  }

  lemma RewriteTrails(b: Board, t: Ticket, c: Comment, next: Board)
    requires WellKeyed(b) && t.id in b.comments && next == RewriteWithComment(b, t, c)
    ensures TrailsStep(b.comments, next.comments, c.id)
  {
  }

  /** The calls that append to a trail. */
  predicate Appends(a: Action) {
    || a.MoveAction? || a.CompleteAction? || a.FlipArchiveAction? || a.PromoteAction? || a.AssignAction?
    || a.CommentAction?
  }

  lemma PerformAppends(b: Board, a: Action, c: Call)
    requires Possible(b, a, c) && Perform(b, a, c).Ok? && Appends(a)
    ensures TrailsStep(b.comments, Perform(b, a, c).value.comments, c.newId)
  {
    hide Blank, TrimSpace, Utf8Len, BlockedBy, ResolvePhase, NewCommentId, TrailsStep, Create, Update, Delete,
      CreatePhase, UpdatePhase, DeletePhase, NextNumber;
    var next := Perform(b, a, c).value;
    match a
    case MoveAction(id, target, comment, enforce) =>
      RewriteTrails(b, next.tickets[id],
                    Comment(c.newId, SystemMove, Some(b.tickets[id].column), Some(target), c.agent, c.now), next);
    case CompleteAction(id, testing, work, learnings) =>
      RewriteTrails(b, next.tickets[id], Entry(c, SystemCompletion), next);
    case FlipArchiveAction(id, comment, want) =>
      RewriteTrails(b, next.tickets[id], Entry(c, if want then SystemArchive else SystemUnarchive), next);
    case PromoteAction(id, comment) => RewriteTrails(b, next.tickets[id], Entry(c, SystemPromote), next);
    case AssignAction(id, phaseRef, comment) => RewriteTrails(b, next.tickets[id], Entry(c, SystemMove), next);
    case CommentAction(id, body) => RewriteTrails(b, next.tickets[id], Entry(c, User), next);
  }

  lemma PerformKeepsTrails(b: Board, a: Action, c: Call)
    requires Possible(b, a, c) && Perform(b, a, c).Ok? && !Appends(a)
    ensures TrailsStep(b.comments, Perform(b, a, c).value.comments, c.newId)
  {
    hide Blank, TrimSpace, Utf8Len, AllWork, ValidRefs, Graph.ReachesFromAny, ResolvePhase, MakeSlug, NextNumber,
      NewCommentId, CompactRefs, TrailsStep, Move, Complete, FlipArchive, Promote, Assign, AddComment;
    SameTrails(b, Perform(b, a, c).value, c.newId);
  }

  lemma SameTrails(b: Board, next: Board, id: Id)
    requires forall t :: t in next.comments ==>
      next.comments[t] == [] || (t in b.comments && next.comments[t] == b.comments[t])
    ensures TrailsStep(b.comments, next.comments, id)
  {
  }

  /** Every call keeps comment ids unique. */
  lemma StepKeepsCommentIds(b: Board, a: Action, c: Call, next: Board)
    requires CommentIdsSound(b.comments) && Step(b, a, c, next)
    ensures CommentIdsSound(next.comments)
  {
    hide CommentIdsSound, Perform, Blank;
    if Perform(b, a, c).Ok? {
      if Appends(a) {
        PerformAppends(b, a, c);
      } else {
        PerformKeepsTrails(b, a, c);
      }
      if t, x: Comment :|
        t in b.comments && x.id == c.newId && next.comments == b.comments[t := b.comments[t] + [x]]
      {
        CommentIdsStay(b.comments, t, x);
      } else {
        CommentIdsDrop(b.comments, next.comments);
      }
    }
  }

  lemma {:induction false} RunKeepsCommentIds(boards: seq<Board>, actions: seq<Action>, calls: seq<Call>, i: nat)
    requires IsRun(boards, actions, calls) && i < |boards|
    ensures CommentIdsSound(boards[i].comments)
  {
    if i > 0 {
      hide Step, CommentIdsSound, StepAt;
      RunKeepsCommentIds(boards, actions, calls, i - 1);
      StepOfRun(boards, actions, calls, i - 1);
      StepKeepsCommentIds(boards[i - 1], actions[i - 1], calls[i - 1], boards[i]);
    }
  }

  // ----- What one call leaves alone -----

  /** For a ticket alive before and after: its trail only grows at the end, its birth kind stands,
      and once done its column, kind and completion never change again. */
  ghost predicate HistoryKept(b: Board, next: Board, id: Id) {
    && id in b.tickets && id in next.tickets && id in b.comments && id in next.comments
    && b.comments[id] <= next.comments[id]
    && BirthKind(next.comments[id], next.tickets[id].kind) == BirthKind(b.comments[id], b.tickets[id].kind)
    && (b.tickets[id].column == Done ==>
          && next.tickets[id].column == Done
          && next.tickets[id].kind == b.tickets[id].kind
          && next.tickets[id].completion == b.tickets[id].completion)
    && (next.tickets[id].kind == Idea ==> next.tickets[id].column == Todo)
  }

  lemma IdeaStaysInTodo(b: Board, id: Id)
    requires Inv(b) && id in b.tickets && b.tickets[id].kind == Idea
    ensures b.tickets[id].column == Todo
  {
    var trail := b.comments[id];
    assert trail[..|trail|] == trail;
    DoneIsFinal(BirthKind(trail, Idea), trail, |trail|, |trail|);
  }

  lemma TicketStepKeepsBirth(trail: seq<Comment>, t: Ticket, trail': seq<Comment>, t': Ticket)
    requires TicketStep(trail, t, trail', t') && (t.kind == Idea ==> t.column == Todo)
    ensures BirthKind(trail', t'.kind) == BirthKind(trail, t.kind) && trail <= trail'
    ensures t.column == Done ==> t'.column == Done && t'.kind == t.kind
  {
    if trail' != trail {
      var c := trail'[|trail'| - 1];
      assert forall x :: x in trail + [c] <==> x in trail || x == c;
      assert c in trail';
    }
  }

  lemma HistoryStarts(b: Board, id: Id)
    requires Inv(b) && id in b.tickets
    ensures HistoryKept(b, b, id)
  {
    if b.tickets[id].kind == Idea {
      IdeaStaysInTodo(b, id);
    }
  }

  lemma StepKeepsHistory(b: Board, a: Action, c: Call, next: Board, id: Id)
    requires Inv(b) && Step(b, a, c, next) && id in b.tickets && id in next.tickets
    ensures HistoryKept(b, next, id)
  {
    StepKeepsInv(b, a, c, next);
    hide Inv, Step, TicketStep, BirthKind;
    InvKeyed(b);
    InvKeyed(next);
    if next.tickets[id].kind == Idea {
      IdeaStaysInTodo(next, id);
    }
    if b.tickets[id].kind == Idea {
      IdeaStaysInTodo(b, id);
    }
    TicketStepKeepsBirth(b.comments[id], b.tickets[id], next.comments[id], next.tickets[id]);
  }

  lemma HistoryChains(b: Board, mid: Board, next: Board, id: Id)
    requires HistoryKept(b, mid, id) && HistoryKept(mid, next, id)
    ensures HistoryKept(b, next, id)
  {
  }

  lemma OneStepKeepsHistory(boards: seq<Board>, actions: seq<Action>, calls: seq<Call>, j: nat, id: Id)
    requires IsRun(boards, actions, calls) && j < |actions|
    requires id in boards[j].tickets && id in boards[j + 1].tickets
    ensures HistoryKept(boards[j], boards[j + 1], id)
  {
    hide Inv, Step, StepAt, HistoryKept;
    RunKeepsInv(boards, actions, calls, j);
    StepOfRun(boards, actions, calls, j);
    StepKeepsHistory(boards[j], actions[j], calls[j], boards[j + 1], id);
  }

  /** Over any stretch of a run in which the ticket stays alive its history is kept. */
  lemma {:induction false} RunKeepsHistory(
      boards: seq<Board>, actions: seq<Action>, calls: seq<Call>, i: nat, j: nat, id: Id)
    requires IsRun(boards, actions, calls) && i <= j < |boards|
    requires forall k :: i <= k <= j ==> id in boards[k].tickets
    ensures HistoryKept(boards[i], boards[j], id)
    decreases j - i
  {
    if i == j {
      RunKeepsInv(boards, actions, calls, j);
      HistoryStarts(boards[j], id);
    } else {
      RunKeepsHistory(boards, actions, calls, i, j - 1, id);
      OneStepKeepsHistory(boards, actions, calls, j - 1, id);
      HistoryChains(boards[i], boards[j - 1], boards[j], id);
    }
  }

  // ----- Composite calls -----

  /** The archive calls of one ArchivePhase sweep, in order. */
  ghost function Sweep(b: Board, ids: seq<Id>, comment: string, calls: seq<Call>): (r: Board)
    requires WellKeyed(b) && |ids| <= |calls|
    ensures WellKeyed(r) && r.phases == b.phases && r.tickets.Keys == b.tickets.Keys
    decreases |ids|
  {
    if ids == [] then b
    else
      var n := |ids| - 1;
      var before := Sweep(b, ids[..n], comment, calls);
      match FlipArchive(before, ids[n], comment, true, calls[n])
      case Ok(next) => next
      case Err(_) => before
  }

  ghost predicate SweptTicket(b: Board, last: Board, id: Id)
    requires WellKeyed(b) && WellKeyed(last) && id in b.tickets && id in last.tickets
  {
    && last.tickets[id] == b.tickets[id].(archived := true)
    && |last.comments[id]| == |b.comments[id]| + 1 && b.comments[id] <= last.comments[id]
    && last.comments[id][|b.comments[id]|].kind == SystemArchive
  }

  /** Distinct live tickets, none archived. */
  ghost predicate AllActive(b: Board, ids: seq<Id>) {
    && (forall i :: 0 <= i < |ids| ==> ids[i] in b.tickets && !b.tickets[ids[i]].archived)
    && (forall i, j :: 0 <= i < j < |ids| ==> ids[i] != ids[j])
  }

  lemma AllActivePrefix(b: Board, ids: seq<Id>, n: nat)
    requires AllActive(b, ids) && n + 1 == |ids|
    ensures AllActive(b, ids[..n]) && ids[n] !in ids[..n]
    ensures ids[n] in b.tickets && !b.tickets[ids[n]].archived
    ensures forall x :: x in ids <==> x in ids[..n] || x == ids[n]
  {
    assert ids == ids[..n] + [ids[n]];
  }

  /** What a sweep leaves of one ticket. */
  ghost predicate SweepResult(b: Board, last: Board, ids: seq<Id>, id: Id)
    requires WellKeyed(b) && WellKeyed(last) && id in b.tickets && id in last.tickets
  {
    if id in ids then SweptTicket(b, last, id)
    else last.tickets[id] == b.tickets[id] && last.comments[id] == b.comments[id]
  }

  /** A sweep over active tickets archives exactly those, with one entry on each trail. */
  lemma {:induction false} SweepArchives(b: Board, ids: seq<Id>, comment: string, calls: seq<Call>, id: Id)
    requires WellKeyed(b) && NamedIds(b.tickets)
    requires |ids| <= |calls| && !Blank(comment) && id in b.tickets && AllActive(b, ids)
    ensures SweepResult(b, Sweep(b, ids, comment, calls), ids, id)
    decreases |ids|
  {
    if ids != [] {
      hide Blank, FlipArchive, AllActive, Sweep, WellKeyed, SweptTicket;
      var n := |ids| - 1;
      var before, last := Sweep(b, ids[..n], comment, calls), Sweep(b, ids, comment, calls);
      AllActivePrefix(b, ids, n);
      assert !Blank(ids[n]);
      SweepArchives(b, ids[..n], comment, calls, id);
      SweepArchives(b, ids[..n], comment, calls, ids[n]);
      SweepStep(before, ids[n], comment, calls[n], id);
      SweepLast(b, ids, comment, calls, n);
      if id == ids[n] {
        SweptOver(b, before, last, id);
      } else {
        SweptKept(b, before, last, id);
      }
    } else {
      assert Sweep(b, ids, comment, calls) == b;
    }
  }

  lemma SweepLast(b: Board, ids: seq<Id>, comment: string, calls: seq<Call>, n: nat)
    requires WellKeyed(b) && |ids| == n + 1 <= |calls|
    ensures
      var r := FlipArchive(Sweep(b, ids[..n], comment, calls), ids[n], comment, true, calls[n]);
      r.Ok? ==> Sweep(b, ids, comment, calls) == r.value
  {
  }

  lemma SweptOver(b: Board, before: Board, last: Board, id: Id)
    requires WellKeyed(b) && WellKeyed(before) && WellKeyed(last)
    requires id in b.tickets && id in before.tickets && id in last.tickets
    requires before.tickets[id] == b.tickets[id] && before.comments[id] == b.comments[id]
    requires SweptTicket(before, last, id)
    ensures SweptTicket(b, last, id)
  {
  }

  lemma SweptKept(b: Board, before: Board, last: Board, id: Id)
    requires WellKeyed(b) && WellKeyed(before) && WellKeyed(last)
    requires id in b.tickets && id in before.tickets && id in last.tickets
    requires last.tickets[id] == before.tickets[id] && last.comments[id] == before.comments[id]
    ensures SweptTicket(b, before, id) ==> SweptTicket(b, last, id)
  {
  }

  lemma SweepStep(b: Board, id: Id, comment: string, c: Call, x: Id)
    requires WellKeyed(b) && !Blank(id) && !Blank(comment)
    requires id in b.tickets && !b.tickets[id].archived && x in b.tickets
    ensures FlipArchive(b, id, comment, true, c).Ok?
    ensures
      var next := FlipArchive(b, id, comment, true, c).value;
      WellKeyed(next) && x in next.tickets
      && if x == id then SweptTicket(b, next, x)
         else next.tickets[x] == b.tickets[x] && next.comments[x] == b.comments[x]
  {
  }

  /** Promotion into a phase fails half-way exactly when the phase does not exist: the call reports
      not-found and the ticket is a work ticket all the same. */
  lemma PromotionSticks(b: Board, id: Id, comment: string, ref: Option<string>, flip: Call, move: Call)
    requires WellKeyed(b) && Promote(b, id, comment, flip).Ok?
    ensures
      var (next, err) := PromoteInto(b, id, comment, ref, flip, move);
      && id in next.tickets && next.tickets[id].kind == Work && b.tickets[id].kind == Idea
      && (err == None || err == Some(NotFound))
      && (err.Some? <==> ref.Some? && ResolvePhase(b.phases, ref.value).None?)
      && (err.None? && ref.Some? ==>
        next.tickets[id].phase == Some(ResolvePhase(b.phases, ref.value).value.id))
  {
    BlankIsEmpty();
  }

  lemma BlankIsEmpty()
    ensures Blank("")
  {
  }

  /** A board with one idea and no phase: naming a phase on promotion errs, and the idea is work. */
  lemma PromotionSticksSomewhere(idea: Ticket, comment: string, flip: Call, move: Call)
    requires idea.kind == Idea && !Blank(idea.id) && !Blank(comment)
    ensures
      var b := Board(map[idea.id := idea], map[idea.id := []], map[]);
      var (next, err) := PromoteInto(b, idea.id, comment, Some("no-such-phase"), flip, move);
      WellKeyed(b) && err == Some(NotFound) && idea.id in next.tickets && next.tickets[idea.id].kind == Work
  {
    hide Blank;
    var b := Board(map[idea.id := idea], map[idea.id := []], map[]);
    PromotionSticks(b, idea.id, comment, Some("no-such-phase"), flip, move);
  }

  // ----- No dependency deadlock -----

  /** The work tickets still to be done. */
  ghost function Pending(tickets: map<Id, Ticket>): set<Id> {
    set id | id in tickets && tickets[id].kind == Work && tickets[id].column != Done
  }

  /** Some pending work ticket is blocked by nothing. */
  lemma SomethingIsUnblocked(b: Board) returns (id: Id)
    requires Inv(b) && Pending(b.tickets) != {}
    ensures id in Pending(b.tickets) && BlockedBy(b.tickets, b.tickets[id].dependsOn) == []
  {
    hide Blank, WellKeyed, NamedIds, PhasesKept, TrailsExplain, CompletionsKept, Graph.Acyclic, BlockedBy;
    id := Graph.SinkExists(Edges(b.tickets), Pending(b.tickets));
    var deps := b.tickets[id].dependsOn;
    forall x | x in deps ensures !IsOpen(b.tickets, x) {
      assert Names(b.tickets[id], x) && IsWork(b.tickets, x);
      assert Graph.IsEdge(Edges(b.tickets), id, x);
      assert x !in Pending(b.tickets);
    }
    NoneOpen(b.tickets, deps);
  }

  lemma {:induction false} NoneOpen(tickets: map<Id, Ticket>, deps: seq<Id>)
    requires forall x :: x in deps ==> !IsOpen(tickets, x)
    ensures BlockedBy(tickets, deps) == []
  {
    if deps != [] {
      NoneOpen(tickets, deps[..|deps| - 1]);
    }
  }

  /** Completing tickets one after another, each unblocked when its turn comes. */
  ghost predicate CompletesInOrder(b: Board, order: seq<Id>, learnings: string, calls: seq<Call>, last: Board)
    requires |calls| == |order|
    decreases |order|
  {
    if order == [] then last == b
    else
      && WellKeyed(b)
      && order[0] in Pending(b.tickets)
      && BlockedBy(b.tickets, b.tickets[order[0]].dependsOn) == []
      && var r := Complete(b, order[0], "", "", learnings, calls[0]);
         r.Ok? && CompletesInOrder(r.value, order[1..], learnings, calls[1..], last)
  }

  lemma CompleteSucceeds(b: Board, id: Id, learnings: string, c: Call)
    requires WellKeyed(b) && id in Pending(b.tickets)
    requires !Blank(id) && Utf8Len(TrimSpace(learnings)) >= LEARNINGS_MIN
    ensures Complete(b, id, "", "", learnings, c).Ok?
    ensures var next := Complete(b, id, "", "", learnings, c).value;
            Pending(next.tickets) == Pending(b.tickets) - {id} && next.tickets.Keys == b.tickets.Keys
  {
    hide Blank, TrimSpace, Utf8Len;
  }

  /** Completing a pending ticket succeeds and takes exactly that ticket off the pending set. */
  lemma CompleteShrinksPending(b: Board, id: Id, learnings: string, c: Call) returns (next: Board)
    requires Inv(b) && id in Pending(b.tickets) && Utf8Len(TrimSpace(learnings)) >= LEARNINGS_MIN
    ensures Complete(b, id, "", "", learnings, c) == Ok(next)
    ensures Inv(next) && Pending(next.tickets) == Pending(b.tickets) - {id} && next.tickets.Keys == b.tickets.Keys
  {
    hide Inv, Blank, TrimSpace, Utf8Len, Complete;
    InvKeyed(b);
    TicketFacts(b, id);
    CompleteSucceeds(b, id, learnings, c);
    CompleteKeepsInv(b, id, "", "", learnings, c);
    next := Complete(b, id, "", "", learnings, c).value;
  }

  lemma NothingLeft(b: Board, learnings: string, calls: seq<Call>, last: Board)
    requires calls == [] && CompletesInOrder(b, [], learnings, calls, last)
    ensures last == b
  {
  }

  lemma FirstCompletes(b: Board, order: seq<Id>, learnings: string, calls: seq<Call>, last: Board)
    requires |calls| == |order| > 0 && CompletesInOrder(b, order, learnings, calls, last)
    ensures WellKeyed(b) && order[0] in Pending(b.tickets) && Utf8Len(TrimSpace(learnings)) >= LEARNINGS_MIN
    ensures Complete(b, order[0], "", "", learnings, calls[0]).Ok?
    ensures
      var next := Complete(b, order[0], "", "", learnings, calls[0]).value;
      CompletesInOrder(next, order[1..], learnings, calls[1..], last)
  {
    hide Blank, TrimSpace, Utf8Len, BlockedBy, Pending, WellKeyed;
  }

  /** However an orchestrator chooses among the unblocked tickets, each completion takes one ticket off
      the pending set, so n of them finish a board with n pending tickets. */
  lemma {:induction false} AnyOrderDrains(b: Board, order: seq<Id>, learnings: string, calls: seq<Call>, last: Board)
    requires Inv(b) && |calls| == |order| && CompletesInOrder(b, order, learnings, calls, last)
    ensures Inv(last) && |order| + |Pending(last.tickets)| == |Pending(b.tickets)|
    decreases |order|
  {
    hide Inv, Complete, BlockedBy, Pending, WellKeyed, CompletesInOrder, TrimSpace, Utf8Len;
    if order == [] {
      NothingLeft(b, learnings, calls, last);
    } else {
      FirstCompletes(b, order, learnings, calls, last);
      var next := CompleteShrinksPending(b, order[0], learnings, calls[0]);
      AnyOrderDrains(next, order[1..], learnings, calls[1..], last);
    }
  }

  /** Such an order always exists: an orchestrator that keeps completing an unblocked ticket is never
      stuck and finishes all n pending tickets in exactly n completions. */
  lemma {:induction false} BoardDrains(b: Board, learnings: string, calls: seq<Call>)
      returns (order: seq<Id>, last: Board)
    requires Inv(b) && |calls| == |Pending(b.tickets)| && Utf8Len(TrimSpace(learnings)) >= LEARNINGS_MIN
    ensures |order| == |Pending(b.tickets)| && Inv(last) && Pending(last.tickets) == {}
    ensures CompletesInOrder(b, order, learnings, calls, last)
    decreases |Pending(b.tickets)|
  {
    hide Inv, Complete, BlockedBy, Pending, WellKeyed, TrimSpace, Utf8Len;
    if Pending(b.tickets) == {} {
      return [], b;
    }
    InvKeyed(b);
    var id := SomethingIsUnblocked(b);
    var next := CompleteShrinksPending(b, id, learnings, calls[0]);
    var rest;
    rest, last := BoardDrains(next, learnings, calls[1..]);
    order := [id] + rest;
    assert order[1..] == rest;
  }

  /** From every board that a project can get to, whatever calls led there. */
  lemma RunDrains(boards: seq<Board>, actions: seq<Action>, calls: seq<Call>, i: nat, learnings: string,
                  more: seq<Call>)
      returns (order: seq<Id>, last: Board)
    requires IsRun(boards, actions, calls) && i < |boards|
    requires |more| == |Pending(boards[i].tickets)| && Utf8Len(TrimSpace(learnings)) >= LEARNINGS_MIN
    ensures |order| == |Pending(boards[i].tickets)| && Pending(last.tickets) == {}
    ensures CompletesInOrder(boards[i], order, learnings, more, last)
  {
    hide IsRun, Pending, CompletesInOrder, TrimSpace, Utf8Len;
    RunKeepsInv(boards, actions, calls, i);
    order, last := BoardDrains(boards[i], learnings, more);
  }
}
