/** The project directory: where each ticket and phase lives, what its files hold, and how the
    staged operations of one commit change it. */
module TicketTree {
  import opened Common
  import opened Text
  import opened Board
  import opened CompletionText
  import BoardLaws

  /** Sorts like the file name: a timestamp prefix, then the id. */
  datatype CommentName = CommentName(at: nat, id: Id)

  /** ticket.yaml. The texts of a completion are not in it; they are in completion.md. */
  datatype TicketRec = TicketRec(number: nat, fields: Ticket)

  datatype TicketDir = TicketDir(rec: TicketRec, completionMd: string, comments: map<CommentName, Comment>)

  /** tickets/<base>, or phases/<phaseDir>/tickets/<base>. */
  datatype DirPath = DirPath(phaseDir: Option<string>, base: string)

  datatype Tree = Tree(tickets: map<DirPath, TicketDir>, phases: map<string, Phase>)

  const EMPTY_TREE := Tree(map[], map[])

  // ----- What the files say about a ticket -----

  const NO_TEXTS := Sections("", "", "")

  function YamlOf(t: Ticket): Ticket {
    t.(completion := match t.completion {
         case None => None
         case Some(done) => Some(done.(sections := NO_TEXTS))
       })
  }

  /** hydrateTicket: the yaml, plus the completion sections when the ticket is done. */
  function Hydrate(dir: TicketDir): Ticket {
    var t := dir.rec.fields;
    t.(completion := match t.completion {
         case None => None
         case Some(done) => Some(done.(sections := ReadSections(dir.completionMd)))
       })
  }

  function NameOf(c: Comment): CommentName {
    CommentName(c.at, c.id)
  }

  ghost predicate Chronological(trail: seq<Comment>) {
    forall i, j :: 0 <= i < j < |trail| ==> trail[i].at < trail[j].at
  }

  /** The comments directory holds exactly the trail, one file a comment. */
  ghost predicate FilesHold(files: map<CommentName, Comment>, trail: seq<Comment>) {
    && Chronological(trail)
    && (forall c :: c in trail ==> NameOf(c) in files && files[NameOf(c)] == c)
    && (forall n :: n in files ==> files[n] in trail && NameOf(files[n]) == n)
  }

  ghost predicate DirHolds(dir: TicketDir, t: Ticket, trail: seq<Comment>) {
    && dir.rec.fields == YamlOf(t)
    && (t.completion.Some? ==> dir.completionMd == RenderCompletion(t.completion.value.sections))
    && FilesHold(dir.comments, trail)
  }

  // ----- Where things live -----

  function PhaseDirName(p: Phase): string {
    NumberedName(p.number, p.slug)
  }

  /** The parent directory a phase id stands for. */
  ghost function Parent(phases: map<Id, Phase>, phase: Option<Id>): Option<string> {
    if phase.Some? && phase.value in phases then Some(PhaseDirName(phases[phase.value])) else None
  }

  /** The directory at p holds the ticket, sits under the parent its phase names, and is named
      after its number. */
  ghost predicate Houses(p: DirPath, dir: TicketDir, t: Ticket, trail: seq<Comment>, parent: Option<string>) {
    && DirHolds(dir, t, trail)
    && p.phaseDir == parent
    && HasNumber(p.base, dir.rec.number)
  }

  ghost predicate Housed(b: Board, dirs: map<DirPath, TicketDir>, where: map<Id, DirPath>, id: Id) {
    && id in b.tickets && id in b.comments && id in where && where[id] in dirs
    && dirs[where[id]].rec.fields.id == id
    && Houses(where[id], dirs[where[id]], b.tickets[id], b.comments[id], Parent(b.phases, b.tickets[id].phase))
  }

  ghost predicate TicketsPlaced(b: Board, dirs: map<DirPath, TicketDir>, where: map<Id, DirPath>) {
    && where.Keys == b.tickets.Keys
    && (forall id :: id in where ==> Housed(b, dirs, where, id))
    && (forall p :: p in dirs ==> dirs[p].rec.fields.id in where && where[dirs[p].rec.fields.id] == p)
    && NumbersDiffer(dirs)
  }

  ghost predicate NumbersDiffer(dirs: map<DirPath, TicketDir>) {
    forall p, q :: p in dirs && q in dirs && p != q ==> dirs[p].rec.number != dirs[q].rec.number
  }

  /** phases/ holds one directory per phase, under its number and slug, and nothing else. */
  ghost predicate PhasesPlaced(phases: map<Id, Phase>, dirs: map<string, Phase>) {
    && (forall p :: p in phases ==> PhaseDirName(phases[p]) in dirs && dirs[PhaseDirName(phases[p])] == phases[p])
    && (forall d :: d in dirs ==> dirs[d].id in phases && phases[dirs[d].id] == dirs[d] && PhaseDirName(dirs[d]) == d)
  }

  /** The coherence invariant: the tree is exactly the board written down. */
  ghost predicate Coherent(b: Board, tree: Tree, where: map<Id, DirPath>) {
    && WellKeyed(b)
    && TicketsPlaced(b, tree.tickets, where)
    && PhasesPlaced(b.phases, tree.phases)
  }

  // ----- Location facts -----

  lemma NamedAfterNumber(b: Board, tree: Tree, where: map<Id, DirPath>, p: DirPath)
    requires Coherent(b, tree, where) && p in tree.tickets
    ensures HasNumber(p.base, tree.tickets[p].rec.number)
  {
    hide Pad3, HasNumber, DirHolds, NumbersDiffer, PhasesPlaced, Parent;
    assert Housed(b, tree.tickets, where, tree.tickets[p].rec.fields.id);
  }

  lemma NumbersOf(b: Board, tree: Tree, where: map<Id, DirPath>, p: DirPath, q: DirPath)
    requires Coherent(b, tree, where) && p in tree.tickets && q in tree.tickets
    ensures p == q || tree.tickets[p].rec.number != tree.tickets[q].rec.number
  {
    hide Pad3, Housed, PhasesPlaced;
  }

  /** Directory base names are unique across the whole project, phases included. */
  lemma BasesUnique(b: Board, tree: Tree, where: map<Id, DirPath>, p: DirPath, q: DirPath)
    requires Coherent(b, tree, where) && p in tree.tickets && q in tree.tickets && p.base == q.base
    ensures p == q
  {
    hide Pad3, Coherent, HasNumber;
    NumbersOf(b, tree, where, p, q);
    NamedAfterNumber(b, tree, where, p);
    NamedAfterNumber(b, tree, where, q);
    OneNumber(p.base, tree.tickets[p].rec.number, tree.tickets[q].rec.number);
  }

  /** Moving a ticket to any other parent never meets an occupied path. */
  lemma RenameTargetVacant(b: Board, tree: Tree, where: map<Id, DirPath>, id: Id, parent: Option<string>)
    requires Coherent(b, tree, where) && id in where && parent != where[id].phaseDir
    ensures DirPath(parent, where[id].base) !in tree.tickets
  {
    hide Pad3, HasNumber, DirHolds, NumbersDiffer, PhasesPlaced, Parent;
    assert Housed(b, tree.tickets, where, id);
    var q := DirPath(parent, where[id].base);
    if q in tree.tickets {
      BasesUnique(b, tree, where, where[id], q);
    }
  }

  /** A base name numbered past every ticket is free, so the collision suffixes are never used. */
  lemma FreshNumberFreshBase(b: Board, tree: Tree, where: map<Id, DirPath>, number: nat, slug: string, p: DirPath)
    requires Coherent(b, tree, where) && forall q :: q in tree.tickets ==> tree.tickets[q].rec.number < number
    requires p in tree.tickets
    ensures p.base != NumberedName(number, slug)
  {
    hide Pad3, Coherent;
    NamedAfterNumber(b, tree, where, p);
    if p.base == NumberedName(number, slug) {
      OneNumber(p.base, tree.tickets[p].rec.number, number);
    }
  }

  /** Different phases live in different directories. */
  lemma PhaseDirsDiffer(phases: map<Id, Phase>, dirs: map<string, Phase>, p: Id, q: Id)
    requires PhasesPlaced(phases, dirs) && p in phases && q in phases && phases[p] != phases[q]
    ensures PhaseDirName(phases[p]) != PhaseDirName(phases[q])
  {
    hide Pad3;
  }

  // ----- The operations of a commit -----

  function WriteDir(tree: Tree, p: DirPath, dir: TicketDir): Tree {
    tree.(tickets := tree.tickets[p := dir])
  }

  /** os.Rename of a directory: refused when the target is occupied or the source missing. */
  function RenameDir(tree: Tree, source: DirPath, target: DirPath): Option<Tree> {
    if source !in tree.tickets || target in tree.tickets then None
    else Some(tree.(tickets := (tree.tickets - {source})[target := tree.tickets[source]]))
  }

  function RemoveTicketDir(tree: Tree, p: DirPath): Tree {
    tree.(tickets := tree.tickets - {p})
  }

  /** os.RemoveAll of a phase directory: everything beneath it goes too. */
  function RemovePhaseDir(tree: Tree, name: string): Tree {
    Tree(map p | p in tree.tickets && p.phaseDir != Some(name) :: tree.tickets[p], tree.phases - {name})
  }

  function WritePhase(tree: Tree, p: Phase): Tree {
    tree.(phases := tree.phases[PhaseDirName(p) := p])
  }

  function WithComment(dir: TicketDir, c: Comment): TicketDir {
    dir.(comments := dir.comments[NameOf(c) := c])
  }

  // ----- Each kind of commit keeps the tree coherent -----

  ghost predicate Later(trail: seq<Comment>, now: nat) {
    forall c :: c in trail ==> c.at < now
  }

  lemma CommentFiled(files: map<CommentName, Comment>, trail: seq<Comment>, c: Comment)
    requires FilesHold(files, trail) && Later(trail, c.at)
    ensures FilesHold(files[NameOf(c) := c], trail + [c])
  {
    var files' := files[NameOf(c) := c];
    forall n | n in files' ensures files'[n] in trail + [c] {
      if n != NameOf(c) {
        assert files[n] in trail;
      }
    }
  }

  /** A directory nothing relevant changed about still houses its ticket. */
  lemma StaysHoused(b: Board, dirs: map<DirPath, TicketDir>, where: map<Id, DirPath>, id: Id,
                    b': Board, dirs': map<DirPath, TicketDir>, where': map<Id, DirPath>)
    requires Housed(b, dirs, where, id)
    requires id in b'.tickets && b'.tickets[id] == b.tickets[id]
    requires id in b'.comments && b'.comments[id] == b.comments[id]
    requires id in where' && where'[id] == where[id]
    requires where[id] in dirs' && dirs'[where[id]] == dirs[where[id]]
    requires Parent(b'.phases, b.tickets[id].phase) == Parent(b.phases, b.tickets[id].phase)
    ensures Housed(b', dirs', where', id)
  {
  }

  /** Two tickets never share a directory. */
  lemma HomesDiffer(b: Board, dirs: map<DirPath, TicketDir>, where: map<Id, DirPath>, x: Id, y: Id)
    requires TicketsPlaced(b, dirs, where) && x in where && y in where && x != y
    ensures where[x] in dirs && where[y] in dirs && where[x] != where[y]
  {
    hide Pad3, Houses, NumbersDiffer;
    assert Housed(b, dirs, where, x) && Housed(b, dirs, where, y);
  }

  lemma PutNumbersDiffer(dirs: map<DirPath, TicketDir>, gone: set<DirPath>, p: DirPath, dir: TicketDir)
    requires NumbersDiffer(dirs)
    requires forall q :: q in dirs && q !in gone ==> dirs[q].rec.number != dir.rec.number
    ensures NumbersDiffer((dirs - gone)[p := dir])
  {
  }

  /** What coherence says of one ticket's directory. */
  lemma HomeOf(b: Board, tree: Tree, where: map<Id, DirPath>, id: Id)
    requires Coherent(b, tree, where) && id in b.tickets
    ensures id in where && where[id] in tree.tickets
    ensures Houses(where[id], tree.tickets[where[id]], b.tickets[id], b.comments[id],
                   Parent(b.phases, b.tickets[id].phase))
    ensures forall q :: q in tree.tickets && q != where[id] ==>
              tree.tickets[q].rec.number != tree.tickets[where[id]].rec.number
  {
    hide Pad3, Houses;
    assert Housed(b, tree.tickets, where, id);
  }

  lemma PutHousesAll(b: Board, dirs: map<DirPath, TicketDir>, where: map<Id, DirPath>, t: Ticket, trail: seq<Comment>,
                     gone: set<DirPath>, p: DirPath, dir: TicketDir)
    requires TicketsPlaced(b, dirs, where)
    requires gone == if t.id in where then {where[t.id]} else {}
    requires p in dirs ==> p in gone
    requires Houses(p, dir, t, trail, Parent(b.phases, t.phase)) && dir.rec.fields.id == t.id
    ensures forall id :: id in where.Keys + {t.id} ==>
              Housed(BoardLaws.Put(b, t, trail), (dirs - gone)[p := dir], where[t.id := p], id)
  {
    hide Pad3, Houses, TicketsPlaced, Housed, Parent;
    forall id | id in where.Keys + {t.id}
      ensures Housed(BoardLaws.Put(b, t, trail), (dirs - gone)[p := dir], where[t.id := p], id)
    {
      if id == t.id {
        PutHousesIt(b, dirs - gone, where, t, trail, p, dir);
      } else {
        PutHousesOther(b, dirs, where, t, trail, gone, p, dir, id);
      }
    }
  }

  lemma PutHousesIt(b: Board, dirs: map<DirPath, TicketDir>, where: map<Id, DirPath>, t: Ticket, trail: seq<Comment>,
                    p: DirPath, dir: TicketDir)
    requires Houses(p, dir, t, trail, Parent(b.phases, t.phase)) && dir.rec.fields.id == t.id
    ensures Housed(BoardLaws.Put(b, t, trail), dirs[p := dir], where[t.id := p], t.id)
  {
    hide Pad3, Houses, Parent;
  }

  lemma PutHousesOther(b: Board, dirs: map<DirPath, TicketDir>, where: map<Id, DirPath>, t: Ticket, trail: seq<Comment>,
                       gone: set<DirPath>, p: DirPath, dir: TicketDir, id: Id)
    requires TicketsPlaced(b, dirs, where) && id in where && id != t.id
    requires gone == if t.id in where then {where[t.id]} else {}
    requires p in dirs ==> p in gone
    ensures Housed(BoardLaws.Put(b, t, trail), (dirs - gone)[p := dir], where[t.id := p], id)
  {
    hide Pad3, Houses, NumbersDiffer, Parent;
    assert Housed(b, dirs, where, id);
    if t.id in where {
      HomesDiffer(b, dirs, where, t.id, id);
    }
    StaysHoused(b, dirs, where, id, BoardLaws.Put(b, t, trail), (dirs - gone)[p := dir], where[t.id := p]);
  }

  /** The one step all commits share: ticket t with its trail now lives at p in directory dir; every
      other ticket's directory, edges apart, is where it was. */
  lemma PutHoused(b: Board, dirs: map<DirPath, TicketDir>, where: map<Id, DirPath>, t: Ticket, trail: seq<Comment>,
                  gone: set<DirPath>, p: DirPath, dir: TicketDir)
    requires TicketsPlaced(b, dirs, where)
    requires gone == if t.id in where then {where[t.id]} else {}
    requires p in dirs ==> p in gone
    requires Houses(p, dir, t, trail, Parent(b.phases, t.phase)) && dir.rec.fields.id == t.id
    requires forall q :: q in dirs && q !in gone ==> dirs[q].rec.number != dir.rec.number
    ensures TicketsPlaced(BoardLaws.Put(b, t, trail), (dirs - gone)[p := dir], where[t.id := p])
  {
    hide Pad3, Houses, NumbersDiffer, Housed, Parent;
    var b', where', dirs' := BoardLaws.Put(b, t, trail), where[t.id := p], (dirs - gone)[p := dir];
    PutHousesAll(b, dirs, where, t, trail, gone, p, dir);
    PutNumbersDiffer(dirs, gone, p, dir);
    PutOwners(dirs, where, t.id, gone, p, dir);
    assert where'.Keys == where.Keys + {t.id} == b'.tickets.Keys;
    assert forall id :: id in where' ==> Housed(b', dirs', where', id);
  }

  lemma PutOwners(dirs: map<DirPath, TicketDir>, where: map<Id, DirPath>, id: Id, gone: set<DirPath>, p: DirPath,
                  dir: TicketDir)
    requires forall q :: q in dirs ==> dirs[q].rec.fields.id in where && where[dirs[q].rec.fields.id] == q
    requires gone == if id in where then {where[id]} else {}
    requires dir.rec.fields.id == id
    ensures
      var dirs', where' := (dirs - gone)[p := dir], where[id := p];
      forall q :: q in dirs' ==> dirs'[q].rec.fields.id in where' && where'[dirs'[q].rec.fields.id] == q
  {
  }

  /** Rewriting one ticket's files in place. */
  lemma RewriteCoherent(b: Board, tree: Tree, where: map<Id, DirPath>, t: Ticket, trail: seq<Comment>, dir: TicketDir)
    requires Coherent(b, tree, where) && t.id in b.tickets
    requires t.phase == b.tickets[t.id].phase && DirHolds(dir, t, trail)
    requires dir.rec.number == tree.tickets[where[t.id]].rec.number
    ensures Coherent(BoardLaws.Put(b, t, trail), WriteDir(tree, where[t.id], dir), where)
  {
    hide Pad3, TicketsPlaced, PhasesPlaced, FilesHold;
    HomeOf(b, tree, where, t.id);
    var p := where[t.id];
    PutHoused(b, tree.tickets, where, t, trail, {p}, p, dir);
    assert tree.tickets[p := dir] == (tree.tickets - {p})[p := dir] && where[t.id := p] == where;
  }

  lemma WhereIs(b: Board, tree: Tree, where: map<Id, DirPath>)
    requires Coherent(b, tree, where)
    ensures where.Keys == b.tickets.Keys
  {
    hide Pad3, Housed, NumbersDiffer, PhasesPlaced;
  }

  /** Creating a ticket directory under the parent its phase names. */
  lemma CreateCoherent(b: Board, tree: Tree, where: map<Id, DirPath>, t: Ticket, p: DirPath, dir: TicketDir)
    requires Coherent(b, tree, where) && t.id !in b.tickets && p !in tree.tickets
    requires Houses(p, dir, t, [], Parent(b.phases, t.phase)) && dir.rec.fields.id == t.id
    requires forall q :: q in tree.tickets ==> tree.tickets[q].rec.number < dir.rec.number
    ensures Coherent(BoardLaws.Put(b, t, []), WriteDir(tree, p, dir), where[t.id := p])
  {
    hide Pad3, PhasesPlaced, TicketsPlaced, Houses, Parent;
    WhereIs(b, tree, where);
    PutHoused(b, tree.tickets, where, t, [], {}, p, dir);
    assert tree.tickets - {} == tree.tickets;
  }

  /** Moving a ticket directory to another parent and rewriting its files there. */
  lemma MoveCoherent(b: Board, tree: Tree, where: map<Id, DirPath>, t: Ticket, trail: seq<Comment>, dir: TicketDir,
                     target: DirPath)
    requires Coherent(b, tree, where) && t.id in b.tickets && DirHolds(dir, t, trail)
    requires dir.rec.number == tree.tickets[where[t.id]].rec.number
    requires target.base == where[t.id].base && target.phaseDir == Parent(b.phases, t.phase)
    requires target !in tree.tickets
    ensures RenameDir(tree, where[t.id], target).Some?
    ensures var moved := RenameDir(tree, where[t.id], target).value;
            Coherent(BoardLaws.Put(b, t, trail), WriteDir(moved, target, dir), where[t.id := target])
  {
    hide Pad3, TicketsPlaced, PhasesPlaced, FilesHold;
    HomeOf(b, tree, where, t.id);
    var moved := RenameDir(tree, where[t.id], target).value;
    PutHoused(b, tree.tickets, where, t, trail, {where[t.id]}, target, dir);
    assert moved.tickets[target := dir] == (tree.tickets - {where[t.id]})[target := dir];
  }

  /** A change of phases that leaves every ticket's parent directory the same. */
  lemma PhasesHoused(b: Board, dirs: map<DirPath, TicketDir>, where: map<Id, DirPath>, phases: map<Id, Phase>)
    requires WellKeyed(b) && TicketsPlaced(b, dirs, where)
    requires forall id :: id in b.tickets ==>
      Parent(phases, b.tickets[id].phase) == Parent(b.phases, b.tickets[id].phase)
    ensures TicketsPlaced(b.(phases := phases), dirs, where)
  {
    hide Pad3, Houses, Parent;
    var b' := b.(phases := phases);
    forall id | id in where ensures Housed(b', dirs, where, id) {
      assert Housed(b, dirs, where, id);
      StaysHoused(b, dirs, where, id, b', dirs, where);
    }
  }

  lemma PutPhasePlaced(phases: map<Id, Phase>, dirs: map<string, Phase>, ph: Phase)
    requires PhasesPlaced(phases, dirs) && forall p :: p in phases ==> phases[p].id == p
    requires if ph.id in phases then PhaseDirName(ph) == PhaseDirName(phases[ph.id]) else PhaseDirName(ph) !in dirs
    ensures PhasesPlaced(phases[ph.id := ph], dirs[PhaseDirName(ph) := ph])
  {
    hide PhaseDirName;
  }

  lemma RemovePhasePlaced(phases: map<Id, Phase>, dirs: map<string, Phase>, ph: Phase)
    requires PhasesPlaced(phases, dirs) && forall p :: p in phases ==> phases[p].id == p
    requires ph.id in phases && phases[ph.id] == ph
    ensures PhasesPlaced(phases - {ph.id}, dirs - {PhaseDirName(ph)})
  {
    hide PhaseDirName;
  }

  /** Replacing, adding or renaming a phase without moving any directory. */
  lemma PutPhaseCoherent(b: Board, tree: Tree, where: map<Id, DirPath>, ph: Phase)
    requires Coherent(b, tree, where)
    requires if ph.id in b.phases then PhaseDirName(ph) == PhaseDirName(b.phases[ph.id])
             else PhaseDirName(ph) !in tree.phases
                  && forall id :: id in b.tickets ==> b.tickets[id].phase != Some(ph.id)
    ensures Coherent(b.(phases := b.phases[ph.id := ph]), WritePhase(tree, ph), where)
  {
    hide Pad3, TicketsPlaced;
    PhasesHoused(b, tree.tickets, where, b.phases[ph.id := ph]);
    PutPhasePlaced(b.phases, tree.phases, ph);
  }

  /** DeletePhase's recursive remove takes no ticket with it. */
  lemma RemovePhaseKeepsTickets(b: Board, tree: Tree, where: map<Id, DirPath>, ph: Phase)
    requires Coherent(b, tree, where) && ph.id in b.phases && b.phases[ph.id] == ph
    requires forall id :: id in b.tickets ==> b.tickets[id].phase != Some(ph.id)
    ensures RemovePhaseDir(tree, PhaseDirName(ph)).tickets == tree.tickets
  {
    hide Pad3, Coherent, PhaseDirName;
    forall p | p in tree.tickets ensures p.phaseDir != Some(PhaseDirName(ph)) {
      NotUnder(b, tree, where, ph, p);
    }
  }

  /** No ticket directory lies under a phase that no ticket names. */
  lemma NotUnder(b: Board, tree: Tree, where: map<Id, DirPath>, ph: Phase, p: DirPath)
    requires Coherent(b, tree, where) && ph.id in b.phases && b.phases[ph.id] == ph && p in tree.tickets
    requires forall id :: id in b.tickets ==> b.tickets[id].phase != Some(ph.id)
    ensures p.phaseDir != Some(PhaseDirName(ph))
  {
    hide Pad3, PhaseDirName, DirHolds, NumbersDiffer, HasNumber, PhasesPlaced;
    var id := tree.tickets[p].rec.fields.id;
    assert Housed(b, tree.tickets, where, id);
    if b.tickets[id].phase.Some? && b.tickets[id].phase.value in b.phases {
      PhaseDirsDiffer(b.phases, tree.phases, b.tickets[id].phase.value, ph.id);
    }
  }

  lemma RemovePhaseCoherent(b: Board, tree: Tree, where: map<Id, DirPath>, ph: Phase)
    requires Coherent(b, tree, where) && ph.id in b.phases && b.phases[ph.id] == ph
    requires forall id :: id in b.tickets ==> b.tickets[id].phase != Some(ph.id)
    ensures Coherent(b.(phases := b.phases - {ph.id}), RemovePhaseDir(tree, PhaseDirName(ph)), where)
  {
    hide Pad3, TicketsPlaced;
    RemovePhaseKeepsTickets(b, tree, where, ph);
    PhasesHoused(b, tree.tickets, where, b.phases - {ph.id});
    RemovePhasePlaced(b.phases, tree.phases, ph);
  }

  function UnlinkDir(dir: TicketDir, id: Id): TicketDir {
    dir.(rec := dir.rec.(fields := Unlink(dir.rec.fields, id)))
  }

  /** The cascade: the doomed directory gone, every other ticket's yaml unlinked from it. */
  function CascadeDirs(dirs: map<DirPath, TicketDir>, doomed: DirPath, id: Id): map<DirPath, TicketDir> {
    map p | p in dirs && p != doomed :: UnlinkDir(dirs[p], id)
  }

  lemma UnlinkedHolds(dir: TicketDir, t: Ticket, trail: seq<Comment>, id: Id)
    requires DirHolds(dir, t, trail)
    ensures DirHolds(UnlinkDir(dir, id), Unlink(t, id), trail)
  {
  }

  lemma UnlinkedIds(tickets: map<Id, Ticket>, dirs: map<DirPath, TicketDir>, doomed: DirPath, id: Id)
    ensures forall x :: x in tickets ==> Unlink(tickets[x], id).id == tickets[x].id
    ensures forall p :: p in CascadeDirs(dirs, doomed, id) ==>
              && CascadeDirs(dirs, doomed, id)[p].rec.fields.id == dirs[p].rec.fields.id
              && CascadeDirs(dirs, doomed, id)[p].rec.number == dirs[p].rec.number
  {
    hide RemoveId;
  }

  lemma CascadeHouses(b: Board, dirs: map<DirPath, TicketDir>, where: map<Id, DirPath>, id: Id, x: Id)
    requires TicketsPlaced(b, dirs, where) && id in where && x in where && x != id
    ensures Housed(Board(BoardLaws.Cascade(b.tickets, id), b.comments - {id}, b.phases),
                   CascadeDirs(dirs, where[id], id), where - {id}, x)
  {
    hide Pad3, NumbersDiffer, DirHolds, RemoveId, HasNumber, Parent;
    assert Housed(b, dirs, where, x);
    HomesDiffer(b, dirs, where, id, x);
    UnlinkedHolds(dirs[where[x]], b.tickets[x], b.comments[x], id);
  }

  lemma CascadeCoherent(b: Board, tree: Tree, where: map<Id, DirPath>, id: Id)
    requires Coherent(b, tree, where) && id in b.tickets
    ensures Coherent(Board(BoardLaws.Cascade(b.tickets, id), b.comments - {id}, b.phases),
                     tree.(tickets := CascadeDirs(tree.tickets, where[id], id)), where - {id})
  {
    hide Pad3, PhasesPlaced, Housed, Unlink, NumbersDiffer, CascadeDirs;
    var dirs', where' := CascadeDirs(tree.tickets, where[id], id), where - {id};
    UnlinkedIds(b.tickets, tree.tickets, where[id], id);
    CascadeNumbers(tree.tickets, where[id], id);
    forall x | x in where'
      ensures Housed(Board(BoardLaws.Cascade(b.tickets, id), b.comments - {id}, b.phases), dirs', where', x)
    {
      CascadeHouses(b, tree.tickets, where, id, x);
    }
  }

  lemma CascadeNumbers(dirs: map<DirPath, TicketDir>, doomed: DirPath, id: Id)
    requires NumbersDiffer(dirs)
    ensures NumbersDiffer(CascadeDirs(dirs, doomed, id))
    ensures CascadeDirs(dirs, doomed, id).Keys == dirs.Keys - {doomed}
  {
    hide Unlink;
  }
}
