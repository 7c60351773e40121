/** The project as its operations promise to change it: tickets, their audit trails and the phases,
    with no disk and no cache. Each operation is one atomic transition; it either produces the next
    board or one of the service's errors, checked in the service's order. */
module Board {
  import opened Common
  import opened Text
  import Graph

  datatype Column = Todo | InProgress | Testing | Done
  datatype Kind = Work | Idea
  datatype CommentKind =
    User | SystemMove | SystemCompletion | SystemArchive | SystemUnarchive | SystemPromote

  datatype Comment = Comment(
    id: Id, kind: CommentKind, fromColumn: Option<Column>, toColumn: Option<Column>, author: Id, at: nat)

  /** The three texts of completion.md, already trimmed. */
  datatype Sections = Sections(testing: string, work: string, learnings: string)

  predicate TrimmedSections(c: Sections) {
    Trimmed(c.testing) && Trimmed(c.work) && Trimmed(c.learnings)
  }

  datatype Completion = Completion(at: nat, agent: Id, sections: Sections)

  datatype Ticket = Ticket(
    id: Id, title: string, column: Column, kind: Kind, phase: Option<Id>, wave: nat,
    dependsOn: seq<Id>, parallelWith: seq<Id>, archived: bool, completion: Option<Completion>,
    createdBy: Id, createdAt: nat)

  datatype Phase = Phase(id: Id, slug: string, number: nat, name: string)

  datatype Board = Board(
    tickets: map<Id, Ticket>, comments: map<Id, seq<Comment>>, phases: map<Id, Phase>)

  const EMPTY_BOARD := Board(map[], map[], map[])

  /** What a call brings along: the acting agent, the time, and the uuid it mints. */
  datatype Call = Call(agent: Id, now: nat, newId: Id)

  const LEARNINGS_MIN := 10
  const SUMMARY_MIN := 200

  // ----- Reading the board -----

  function Edges(tickets: map<Id, Ticket>): Graph.Edges {
    map id | id in tickets :: tickets[id].dependsOn
  }

  predicate IsOpen(tickets: map<Id, Ticket>, id: Id) {
    id !in tickets || tickets[id].column != Done
  }

  /** computeBlockedBy: the dependencies not yet done; a missing one still blocks. */
  function BlockedBy(tickets: map<Id, Ticket>, deps: seq<Id>): seq<Id> {
    if deps == [] then []
    else
      var n := |deps| - 1;
      BlockedBy(tickets, deps[..n]) + if IsOpen(tickets, deps[n]) then [deps[n]] else []
  }

  /** removeID: every occurrence dropped, the rest in order. */
  function RemoveId(ids: seq<Id>, target: Id): seq<Id> {
    if ids == [] then []
    else
      var n := |ids| - 1;
      RemoveId(ids[..n], target) + if ids[n] == target then [] else [ids[n]]
  }

  /** compactTicketRefs: trimmed, blanks dropped. */
  function CompactRefs(refs: seq<string>): seq<Id> {
    if refs == [] then []
    else
      var n := |refs| - 1;
      CompactRefs(refs[..n]) + if Blank(refs[n]) then [] else [TrimSpace(refs[n])]
  }

  /** A live ticket that may gate work. */
  predicate IsWork(tickets: map<Id, Ticket>, id: Id) {
    id in tickets && tickets[id].kind == Work
  }

  predicate AllWork(tickets: map<Id, Ticket>, ids: seq<Id>) {
    forall id :: id in ids ==> IsWork(tickets, id)
  }

  /** resolvePhase: by id first, then by slug. */
  ghost function ResolvePhase(phases: map<Id, Phase>, ref: string): Option<Phase> {
    if ref in phases then Some(phases[ref])
    else if p :| p in phases && phases[p].slug == ref then Some(phases[p])
    else None
  }

  ghost predicate NextNumber(phases: map<Id, Phase>, n: nat) {
    && (forall p :: p in phases ==> phases[p].number < n)
    && (n == 1 || exists p :: p in phases && phases[p].number == n - 1)
  }

  // ----- Changing the board -----

  function Rewrite(b: Board, t: Ticket): Board {
    b.(tickets := b.tickets[t.id := t])
  }

  /** One ticket rewritten and one comment appended to its trail. */
  function RewriteWithComment(b: Board, t: Ticket, c: Comment): Board
    requires t.id in b.comments
  {
    Board(b.tickets[t.id := t], b.comments[t.id := b.comments[t.id] + [c]], b.phases)
  }

  function Entry(c: Call, kind: CommentKind): Comment {
    Comment(c.newId, kind, None, None, c.agent, c.now)
  }

  ghost predicate WellKeyed(b: Board) {
    && (forall id :: id in b.tickets ==> b.tickets[id].id == id)
    && b.comments.Keys == b.tickets.Keys
    && (forall p :: p in b.phases ==> b.phases[p].id == p)
  }

  datatype CreateInput = CreateInput(
    title: string, kind: Kind, phaseRef: Option<string>, wave: int,
    dependsOn: seq<Id>, parallelWith: seq<Id>)

  ghost function Create(b: Board, arg: CreateInput, c: Call): Result<Board> {
    if Blank(arg.title) || arg.wave < 0 then Err(InvalidArgument)
    else if arg.phaseRef.Some? && ResolvePhase(b.phases, arg.phaseRef.value).None? then Err(NotFound)
    else if !AllWork(b.tickets, arg.dependsOn) || !AllWork(b.tickets, arg.parallelWith) then
      Err(InvalidArgument)
    else
      var phase := if arg.phaseRef.None? then None
                   else Some(ResolvePhase(b.phases, arg.phaseRef.value).value.id);
      var t := Ticket(c.newId, TrimSpace(arg.title), Todo, arg.kind, phase, arg.wave,
                      arg.dependsOn, arg.parallelWith, false, None, c.agent, c.now);
      Ok(Board(b.tickets[t.id := t], b.comments[t.id := []], b.phases))
  }

  datatype UpdateInput = UpdateInput(
    title: Option<string>, wave: Option<int>,
    dependsOn: Option<seq<string>>, parallelWith: Option<seq<string>>)

  ghost predicate ValidRefs(b: Board, id: Id, refs: Option<seq<string>>) {
    refs.Some? ==>
      var r := CompactRefs(refs.value);
      id !in r && AllWork(b.tickets, r)
  }

  ghost function Update(b: Board, id: Id, arg: UpdateInput): Result<Board> {
    if Blank(id) || (arg.wave.Some? && arg.wave.value < 0) then Err(InvalidArgument)
    else if id !in b.tickets then Err(NotFound)
    else if arg.title.Some? && Blank(arg.title.value) then Err(InvalidArgument)
    else if !ValidRefs(b, id, arg.dependsOn) || !ValidRefs(b, id, arg.parallelWith) then Err(InvalidArgument)
    else if arg.dependsOn.Some?
         && Graph.ReachesFromAny(Edges(b.tickets), CompactRefs(arg.dependsOn.value), id) then
      Err(InvalidArgument)
    else
      var t := b.tickets[id];
      Ok(Rewrite(b, t.(
        id := id,
        title := if arg.title.Some? then TrimSpace(arg.title.value) else t.title,
        wave := if arg.wave.Some? then arg.wave.value else t.wave,
        dependsOn := if arg.dependsOn.Some? then CompactRefs(arg.dependsOn.value) else t.dependsOn,
        parallelWith := if arg.parallelWith.Some? then CompactRefs(arg.parallelWith.value)
                        else t.parallelWith)))
  }

  ghost function Move(b: Board, id: Id, target: Column, comment: string, enforce: bool, c: Call): Result<Board>
    requires WellKeyed(b)
  {
    if Blank(id) || target == Done || Blank(comment) then Err(InvalidArgument)
    else if id !in b.tickets then Err(NotFound)
    else
      var t := b.tickets[id];
      if t.column == Done || (t.kind == Idea && target != Todo)
         || (target == InProgress && enforce && BlockedBy(b.tickets, t.dependsOn) != []) then
        Err(FailedPrecondition)
      else
        Ok(RewriteWithComment(b, t.(column := target),
                              Comment(c.newId, SystemMove, Some(t.column), Some(target), c.agent, c.now)))
  }

  ghost function Complete(b: Board, id: Id, testing: string, work: string, learnings: string, c: Call): Result<Board>
    requires WellKeyed(b)
  {
    if Blank(id) || Utf8Len(TrimSpace(learnings)) < LEARNINGS_MIN then Err(InvalidArgument)
    else if id !in b.tickets then Err(NotFound)
    else
      var t := b.tickets[id];
      if t.kind == Idea || t.column == Done then Err(FailedPrecondition)
      else
        var sections := Sections(TrimSpace(testing), TrimSpace(work), TrimSpace(learnings));
        Ok(RewriteWithComment(b, t.(column := Done, completion := Some(Completion(c.now, c.agent, sections))),
                              Entry(c, SystemCompletion)))
  }

  ghost function FlipArchive(b: Board, id: Id, comment: string, want: bool, c: Call): Result<Board>
    requires WellKeyed(b)
  {
    if Blank(id) || Blank(comment) then Err(InvalidArgument)
    else if id !in b.tickets then Err(NotFound)
    else if b.tickets[id].archived == want then Err(FailedPrecondition)
    else Ok(RewriteWithComment(b, b.tickets[id].(archived := want),
                               Entry(c, if want then SystemArchive else SystemUnarchive)))
  }

  ghost function Promote(b: Board, id: Id, comment: string, c: Call): Result<Board>
    requires WellKeyed(b)
  {
    if Blank(id) || Blank(comment) then Err(InvalidArgument)
    else if id !in b.tickets then Err(NotFound)
    else if b.tickets[id].kind != Idea then Err(FailedPrecondition)
    else Ok(RewriteWithComment(b, b.tickets[id].(kind := Work), Entry(c, SystemPromote)))
  }

  ghost function Assign(b: Board, id: Id, ref: Option<string>, comment: string, c: Call): Result<Board>
    requires WellKeyed(b)
  {
    if Blank(id) || comment == "" then Err(InvalidArgument)
    else if id !in b.tickets then Err(NotFound)
    else if ref.Some? && ResolvePhase(b.phases, ref.value).None? then Err(NotFound)
    else
      var phase := if ref.None? then None else Some(ResolvePhase(b.phases, ref.value).value.id);
      if b.tickets[id].phase == phase then Err(InvalidArgument)
      else Ok(RewriteWithComment(b, b.tickets[id].(phase := phase), Entry(c, SystemMove)))
  }

  /** PromoteIdea: the flip, then a reassignment when another phase was asked for. The flip is a commit
      of its own, so an error of the second half leaves it in place. */
  ghost function PromoteInto(b: Board, id: Id, comment: string, ref: Option<string>, flip: Call, move: Call)
    : (Board, Option<Error>)
    requires WellKeyed(b)
  {
    match Promote(b, id, comment, flip)
    case Err(e) => (b, Some(e))
    case Ok(promoted) =>
      if ref.None? then (promoted, None)
      else if ResolvePhase(b.phases, ref.value).None? then (promoted, Some(NotFound))
      else if promoted.tickets[id].phase == Some(ResolvePhase(b.phases, ref.value).value.id) then (promoted, None)
      else
        match Assign(promoted, id, ref, comment, move)
        case Err(e) => (promoted, Some(e))
        case Ok(moved) => (moved, None)
  }

  ghost function AddComment(b: Board, id: Id, body: string, c: Call): Result<Board>
    requires WellKeyed(b)
  {
    if Blank(body) || Blank(id) then Err(InvalidArgument)
    else if id !in b.tickets then Err(NotFound)
    else Ok(RewriteWithComment(b, b.tickets[id], Entry(c, User)))
  }

  function Unlink(t: Ticket, id: Id): Ticket {
    t.(dependsOn := RemoveId(t.dependsOn, id), parallelWith := RemoveId(t.parallelWith, id))
  }

  ghost function Delete(b: Board, id: Id): Result<Board> {
    if Blank(id) then Err(InvalidArgument)
    else if id !in b.tickets then Err(NotFound)
    else if b.tickets[id].column == Done then Err(FailedPrecondition)
    else Ok(Board(map x | x in b.tickets && x != id :: Unlink(b.tickets[x], id), b.comments - {id}, b.phases))
  }

  ghost function CreatePhase(b: Board, name: string, summary: string, number: nat, c: Call): Result<Board>
    requires NextNumber(b.phases, number)
  {
    if Blank(name) || Utf8Len(TrimSpace(summary)) < SUMMARY_MIN then Err(InvalidArgument)
    else
      var slug := MakeSlug(TrimSpace(name));
      if exists p :: p in b.phases && b.phases[p].slug == slug then Err(AlreadyExists)
      else Ok(b.(phases := b.phases[c.newId := Phase(c.newId, slug, number, TrimSpace(name))]))
  }

  ghost function UpdatePhase(b: Board, ref: string, name: Option<string>, summary: Option<string>): Result<Board> {
    if Blank(ref) then Err(InvalidArgument)
    else if ResolvePhase(b.phases, ref).None? then Err(NotFound)
    else if summary.Some? && Utf8Len(TrimSpace(summary.value)) < SUMMARY_MIN then Err(InvalidArgument)
    else
      var ph := ResolvePhase(b.phases, ref).value;
      var ph' := if name.Some? then ph.(name := TrimSpace(name.value)) else ph;
      Ok(b.(phases := b.phases[ph.id := ph']))
  }

  ghost function DeletePhase(b: Board, ref: string): Result<Board> {
    if Blank(ref) then Err(InvalidArgument)
    else if ResolvePhase(b.phases, ref).None? then Err(NotFound)
    else
      var ph := ResolvePhase(b.phases, ref).value;
      if exists id :: id in b.tickets && b.tickets[id].phase == Some(ph.id) then Err(FailedPrecondition)
      else Ok(b.(phases := b.phases - {ph.id}))
  }

  // ----- Runs -----

  datatype Action =
    | CreateAction(arg: CreateInput)
    | UpdateAction(id: Id, edit: UpdateInput)
    | MoveAction(id: Id, target: Column, comment: string, enforce: bool)
    | CompleteAction(id: Id, testing: string, work: string, learnings: string)
    | FlipArchiveAction(id: Id, comment: string, want: bool)
    | PromoteAction(id: Id, comment: string)
    | AssignAction(id: Id, phaseRef: Option<string>, comment: string)
    | CommentAction(id: Id, body: string)
    | DeleteAction(id: Id)
    | CreatePhaseAction(name: string, summary: string, number: nat)
    | UpdatePhaseAction(ref: string, rename: Option<string>, newSummary: Option<string>)
    | DeletePhaseAction(ref: string)

  ghost predicate NewCommentId(comments: map<Id, seq<Comment>>, id: Id) {
    forall t, x :: t in comments && x in comments[t] ==> x.id != id
  }

  /** The minted uuid is not blank and names nothing live; a new phase gets the number the service
      computes for it. */
  ghost predicate Possible(b: Board, a: Action, c: Call) {
    && WellKeyed(b)
    && !Blank(c.newId) && c.newId !in b.tickets && c.newId !in b.phases && NewCommentId(b.comments, c.newId)
    && (a.CreatePhaseAction? ==> NextNumber(b.phases, a.number))
  }

  ghost function Perform(b: Board, a: Action, c: Call): Result<Board>
    requires Possible(b, a, c)
  {
    match a
    case CreateAction(arg) => Create(b, arg, c)
    case UpdateAction(id, edit) => Update(b, id, edit)
    case MoveAction(id, target, comment, enforce) => Move(b, id, target, comment, enforce, c)
    case CompleteAction(id, testing, work, learnings) => Complete(b, id, testing, work, learnings, c)
    case FlipArchiveAction(id, comment, want) => FlipArchive(b, id, comment, want, c)
    case PromoteAction(id, comment) => Promote(b, id, comment, c)
    case AssignAction(id, phaseRef, comment) => Assign(b, id, phaseRef, comment, c)
    case CommentAction(id, body) => AddComment(b, id, body, c)
    case DeleteAction(id) => Delete(b, id)
    case CreatePhaseAction(name, summary, number) => CreatePhase(b, name, summary, number, c)
    case UpdatePhaseAction(ref, name, summary) => UpdatePhase(b, ref, name, summary)
    case DeletePhaseAction(ref) => DeletePhase(b, ref)
  }

  /** One call, successful or not; a failed call changes nothing. */
  ghost predicate Step(b: Board, a: Action, c: Call, next: Board) {
    && Possible(b, a, c)
    && next == match Perform(b, a, c) { case Ok(changed) => changed case Err(_) => b }
  }

  ghost predicate StepAt(boards: seq<Board>, actions: seq<Action>, calls: seq<Call>, i: int) {
    && 0 <= i < |actions| && i < |calls| && i + 1 < |boards|
    && Step(boards[i], actions[i], calls[i], boards[i + 1])
  }

  /** The boards a project goes through, starting from an empty one. */
  ghost predicate IsRun(boards: seq<Board>, actions: seq<Action>, calls: seq<Call>) {
    && |boards| == |actions| + 1 && |calls| == |actions|
    && boards[0] == EMPTY_BOARD
    && forall i :: 0 <= i < |actions| ==> StepAt(boards, actions, calls, i)
  }
}
