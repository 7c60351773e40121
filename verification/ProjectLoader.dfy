/** loadFromDisk: what a fresh walk of the directory tree hydrates, and when that is the cache. */
module ProjectLoader {
  import opened Common
  import opened Text
  import opened Board
  import opened BoardLaws
  import opened CompletionText
  import opened TicketTree
  import opened ProjectService

  // ----- WalkComments -----

  method EarliestName(names: set<CommentName>) returns (first: CommentName)
    requires names != {}
    ensures first in names && forall n :: n in names ==> first.at <= n.at
  {
    first :| first in names;
    var rest := names - {first};
    while rest != {}
      invariant rest <= names && first in names
      invariant forall n :: n in names && n !in rest ==> first.at <= n.at
      decreases |rest|
    {
      var n :| n in rest;
      if n.at < first.at {
        first := n;
      }
      rest := rest - {n};
    }
  }

  ghost function NamesFrom(trail: seq<Comment>, k: nat): set<CommentName>
    requires k <= |trail|
  {
    set i | k <= i < |trail| :: NameOf(trail[i])
  }

  /** The names of a chronological trail come off in trail order. */
  lemma NextName(files: map<CommentName, Comment>, trail: seq<Comment>, k: nat, n: CommentName)
    requires FilesHold(files, trail) && k < |trail|
    requires n in NamesFrom(trail, k) && forall m :: m in NamesFrom(trail, k) ==> n.at <= m.at
    ensures n in files && files[n] == trail[k] && NamesFrom(trail, k) - {n} == NamesFrom(trail, k + 1)
  {
    assert NameOf(trail[k]) in NamesFrom(trail, k);
    var i :| k <= i < |trail| && n == NameOf(trail[i]);
    assert i == k && trail[k] in trail;
    forall j | k < j < |trail| ensures NameOf(trail[j]) != n {
      assert trail[k].at < trail[j].at;
    }
  }

  /** Reading the comment files in name order gives back the trail they were written from. */
  method WalkComments(files: map<CommentName, Comment>, ghost trail: seq<Comment>) returns (read: seq<Comment>)
    requires FilesHold(files, trail)
    ensures read == trail
  {
    hide FilesHold, Chronological;
    read := [];
    var todo := files.Keys;
    FileNames(files, trail);
    while todo != {}
      invariant |read| <= |trail| && read == trail[..|read|]
      invariant todo == NamesFrom(trail, |read|)
      decreases |todo|
    {
      var n := EarliestName(todo);
      NoNamesLeft(trail, |read|);
      NextName(files, trail, |read|, n);
      read := read + [files[n]];
      todo := todo - {n};
    }
    NoNamesLeft(trail, |read|);
    assert trail[..|trail|] == trail;
  }

  lemma NoNamesLeft(trail: seq<Comment>, k: nat)
    requires k <= |trail|
    ensures NamesFrom(trail, k) == {} <==> k == |trail|
  {
    if k < |trail| {
      assert NameOf(trail[k]) in NamesFrom(trail, k);
    }
  }

  lemma FileNames(files: map<CommentName, Comment>, trail: seq<Comment>)
    requires FilesHold(files, trail)
    ensures files.Keys == NamesFrom(trail, 0)
  {
    forall n | n in files ensures n in NamesFrom(trail, 0) {
      var i :| 0 <= i < |trail| && trail[i] == files[n];
      assert NameOf(trail[i]) == n;
    }
    forall i | 0 <= i < |trail| ensures NameOf(trail[i]) in files {
      assert trail[i] in trail;
    }
  }

  // ----- The walk over tickets and phases -----

  /** What a reload makes of a cached ticket: its completion texts are parsed back from the file. */
  function Reloaded(t: Ticket): Ticket {
    t.(completion := match t.completion {
         case None => None
         case Some(done) => Some(done.(sections := ReadSections(RenderCompletion(done.sections))))
       })
  }

  /** The reloaded ticket is the cached one exactly when no completion section has a heading line. */
  lemma ReloadedIff(t: Ticket)
    requires CompletionFits(t)
    ensures Reloaded(t) == t <==> (t.completion.Some? ==> PlainSections(t.completion.value.sections))
  {
    hide RenderCompletion, ReadSections, PlainSections;
    if t.completion.Some? {
      CompletionRoundTripIff(t.completion.value.sections);
    }
  }

  /** Whether a completion survives the next load depends on its three texts alone. */
  lemma CompletionSurvivesIff(b: Board, id: Id, testing: string, work: string, learnings: string, c: Call)
    requires WellKeyed(b) && Complete(b, id, testing, work, learnings, c).Ok?
    ensures
      var t := Complete(b, id, testing, work, learnings, c).value.tickets[id];
      Reloaded(t) == t <==> PlainSections(Sections(TrimSpace(testing), TrimSpace(work), TrimSpace(learnings)))
  {
    hide Blank, TrimSpace, Utf8Len, Reloaded, PlainSections;
    TrimSpaceTrims(testing);
    TrimSpaceTrims(work);
    TrimSpaceTrims(learnings);
    ReloadedIff(Complete(b, id, testing, work, learnings, c).value.tickets[id]);
  }

  lemma LostTextsStay()
    ensures
      var c := LOST_SECTIONS;
      Sections(TrimSpace(c.testing), TrimSpace(c.work), TrimSpace(c.learnings)) == c
  {
    hide TrimSpace;
    HeadingInsideIsLost();
    TrimmedStays(LOST_SECTIONS.testing);
    TrimmedStays(LOST_SECTIONS.work);
    TrimmedStays(LOST_SECTIONS.learnings);
  }

  /** On any board an open work ticket can be completed with texts that the next load loses. */
  lemma CompletedTextIsLost(b: Board, id: Id, c: Call) returns (next: Board)
    requires Inv(b) && IsWork(b.tickets, id) && b.tickets[id].column != Done
    ensures WellKeyed(b)
    ensures Complete(b, id, LOST_SECTIONS.testing, LOST_SECTIONS.work, LOST_SECTIONS.learnings, c) == Ok(next)
    ensures id in next.tickets && Reloaded(next.tickets[id]) != next.tickets[id]
  {
    hide Inv, Blank, TrimSpace, Utf8Len, Reloaded, PlainSections, WellKeyed, LOST_SECTIONS;
    InvKeyed(b);
    TicketFacts(b, id);
    HeadingInsideIsLost();
    LostTextsStay();
    var texts := LOST_SECTIONS;
    next := Complete(b, id, texts.testing, texts.work, texts.learnings, c).value;
    CompletionSurvivesIff(b, id, texts.testing, texts.work, texts.learnings, c);
  }

  /** What a directory's owner is, from the directory's side. */
  lemma OwnerOf(b: Board, tree: Tree, where: map<Id, DirPath>, p: DirPath)
    requires Coherent(b, tree, where) && p in tree.tickets
    ensures tree.tickets[p].rec.fields.id in b.tickets && tree.tickets[p].rec.fields.id in where
    ensures where[tree.tickets[p].rec.fields.id] == p && tree.tickets[p].rec.fields.id in b.comments
    ensures FilesHold(tree.tickets[p].comments, b.comments[tree.tickets[p].rec.fields.id])
    ensures Hydrate(tree.tickets[p]) == Reloaded(b.tickets[tree.tickets[p].rec.fields.id])
  {
    hide FilesHold, RenderCompletion, ReadSections, PhasesPlaced, NumbersDiffer;
    assert Housed(b, tree.tickets, where, tree.tickets[p].rec.fields.id);
  }

  lemma EveryOwnerFound(b: Board, tree: Tree, where: map<Id, DirPath>, id: Id)
    requires Coherent(b, tree, where) && id in b.tickets
    ensures id in where && where[id] in tree.tickets && tree.tickets[where[id]].rec.fields.id == id
  {
    hide Houses, PhasesPlaced, NumbersDiffer;
    assert Housed(b, tree.tickets, where, id);
  }

  ghost predicate ReadSoFar(b: Board, where: map<Id, DirPath>, todo: set<DirPath>,
                            tickets: map<Id, Ticket>, comments: map<Id, seq<Comment>>) {
    && comments.Keys == tickets.Keys
    && (forall id :: id in tickets <==> id in b.tickets && id in where && where[id] !in todo)
    && forall id :: id in tickets ==>
         tickets[id] == Reloaded(b.tickets[id]) && id in b.comments && comments[id] == b.comments[id]
  }

  lemma ReadOneMore(b: Board, where: map<Id, DirPath>, todo: set<DirPath>, tickets: map<Id, Ticket>,
                    comments: map<Id, seq<Comment>>, p: DirPath, id: Id)
    requires ReadSoFar(b, where, todo, tickets, comments) && id in b.tickets && id in b.comments
    requires p in todo && id in where && where[id] == p
    requires forall x :: x in b.tickets && x in where && where[x] == p ==> x == id
    ensures ReadSoFar(b, where, todo - {p}, tickets[id := Reloaded(b.tickets[id])], comments[id := b.comments[id]])
  {
    hide Reloaded;
  }

  method LoadTickets(tree: Tree, ghost b: Board, ghost where: map<Id, DirPath>)
    returns (tickets: map<Id, Ticket>, comments: map<Id, seq<Comment>>)
    requires Coherent(b, tree, where)
    ensures comments == b.comments
    ensures tickets == map id | id in b.tickets :: Reloaded(b.tickets[id])
  {
    hide TicketsPlaced, PhasesPlaced, Reloaded, ReadSoFar, FilesHold, Hydrate;
    tickets, comments := map[], map[];
    var todo := tree.tickets.Keys;
    ReadNothing(b, tree, where);
    while todo != {}
      invariant todo <= tree.tickets.Keys && ReadSoFar(b, where, todo, tickets, comments)
      decreases |todo|
    {
      var p :| p in todo;
      var dir := tree.tickets[p];
      var t := Hydrate(dir);
      ghost var id := dir.rec.fields.id;
      OwnerOf(b, tree, where, p);
      HydratedId(dir);
      forall x | x in b.tickets && x in where && where[x] == p ensures x == id {
        EveryOwnerFound(b, tree, where, x);
      }
      var trail := WalkComments(dir.comments, b.comments[id]);
      ReadOneMore(b, where, todo, tickets, comments, p, id);
      tickets := tickets[t.id := t];
      comments := comments[t.id := trail];
      todo := todo - {p};
    }
    ReadAll(b, tree, where, tickets, comments);
  }

  lemma HydratedId(dir: TicketDir)
    ensures Hydrate(dir).id == dir.rec.fields.id
  {
  }

  lemma ReadNothing(b: Board, tree: Tree, where: map<Id, DirPath>)
    requires Coherent(b, tree, where)
    ensures ReadSoFar(b, where, tree.tickets.Keys, map[], map[])
  {
    hide TicketsPlaced, PhasesPlaced, Reloaded;
    forall id | id in b.tickets ensures id in where && where[id] in tree.tickets {
      EveryOwnerFound(b, tree, where, id);
    }
  }

  lemma ReadAll(b: Board, tree: Tree, where: map<Id, DirPath>, tickets: map<Id, Ticket>,
                comments: map<Id, seq<Comment>>)
    requires Coherent(b, tree, where) && ReadSoFar(b, where, {}, tickets, comments)
    ensures comments == b.comments && tickets == map id | id in b.tickets :: Reloaded(b.tickets[id])
  {
    hide TicketsPlaced, PhasesPlaced, Reloaded;
    forall id | id in b.tickets ensures id in where {
      EveryOwnerFound(b, tree, where, id);
    }
  }

  method LoadPhases(dirs: map<string, Phase>, ghost phases: map<Id, Phase>, ghost bySlug: map<string, Id>)
    returns (byId: map<Id, Phase>, slugs: map<string, Id>)
    requires PhasesPlaced(phases, dirs) && SlugIndex(phases, bySlug) && forall p :: p in phases ==> phases[p].id == p
    ensures byId == phases && slugs == bySlug
  {
    hide PhaseDirName, PhasesPlaced, SlugIndex, PhasesRead;
    byId, slugs := map[], map[];
    var todo := dirs.Keys;
    NoPhaseRead(dirs, phases, bySlug);
    while todo != {}
      invariant todo <= dirs.Keys && PhasesRead(phases, bySlug, todo, byId, slugs)
      decreases |todo|
    {
      var d :| d in todo;
      var ph := dirs[d];
      ReadPhase(dirs, phases, bySlug, todo, byId, slugs, d);
      byId := byId[ph.id := ph];
      slugs := slugs[ph.slug := ph.id];
      todo := todo - {d};
    }
    AllPhasesRead(phases, bySlug, byId, slugs);
  }

  /** Both maps hold exactly the phases whose directories have been read. */
  ghost predicate PhasesRead(phases: map<Id, Phase>, bySlug: map<string, Id>, todo: set<string>,
                             byId: map<Id, Phase>, slugs: map<string, Id>) {
    && (forall s :: s in bySlug ==> bySlug[s] in phases)
    && (forall p :: p in byId <==> p in phases && PhaseDirName(phases[p]) !in todo)
    && (forall p :: p in byId ==> byId[p] == phases[p])
    && (forall s :: s in slugs <==> s in bySlug && PhaseDirName(phases[bySlug[s]]) !in todo)
    && (forall s :: s in slugs ==> slugs[s] == bySlug[s])
  }

  lemma NoPhaseRead(dirs: map<string, Phase>, phases: map<Id, Phase>, bySlug: map<string, Id>)
    requires PhasesPlaced(phases, dirs) && SlugIndex(phases, bySlug)
    ensures PhasesRead(phases, bySlug, dirs.Keys, map[], map[])
  {
    hide PhaseDirName;
  }

  lemma ReadPhase(dirs: map<string, Phase>, phases: map<Id, Phase>, bySlug: map<string, Id>, todo: set<string>,
                  byId: map<Id, Phase>, slugs: map<string, Id>, d: string)
    requires PhasesPlaced(phases, dirs) && SlugIndex(phases, bySlug) && PhasesRead(phases, bySlug, todo, byId, slugs)
    requires d in todo && d in dirs && forall p :: p in phases ==> phases[p].id == p
    ensures PhasesRead(phases, bySlug, todo - {d}, byId[dirs[d].id := dirs[d]], slugs[dirs[d].slug := dirs[d].id])
  {
    hide PhaseDirName;
  }

  lemma AllPhasesRead(phases: map<Id, Phase>, bySlug: map<string, Id>, byId: map<Id, Phase>, slugs: map<string, Id>)
    requires PhasesRead(phases, bySlug, {}, byId, slugs)
    ensures byId == phases && slugs == bySlug
  {
    hide PhaseDirName;
  }

  lemma SoundParts(b: Board, bySlug: map<string, Id>, tree: Tree, where: map<Id, DirPath>, clock: nat)
    requires Sound(b, bySlug, tree, where, clock)
    ensures Coherent(b, tree, where) && PhasesPlaced(b.phases, tree.phases) && SlugIndex(b.phases, bySlug)
    ensures (forall p :: p in b.phases ==> b.phases[p].id == p)
    ensures forall id :: id in b.tickets ==> CompletionFits(b.tickets[id])
  {
    hide EdgesLive, TrailsExplain, TicketsPlaced, PhasesPlaced, SlugIndex, CompletionFits, PhasesKept, NamedIds, Recent;
  }

  /** The cache coherence theorem. Evicting the project and loading it again from its files gives the
      same phases, trails and tickets, except that completion texts come back as the parser reads them. */
  method Reload(project: Project)
    returns (tickets: map<Id, Ticket>, comments: map<Id, seq<Comment>>, phases: map<Id, Phase>, bySlug: map<string, Id>)
    requires project.Valid()
    ensures comments == project.comments && phases == project.phases && bySlug == project.phasesBySlug
    ensures tickets.Keys == project.tickets.Keys
    ensures forall id :: id in tickets ==> tickets[id] == Reloaded(project.tickets[id])
    ensures tickets == project.tickets <==>
            forall id :: id in project.tickets && project.tickets[id].completion.Some? ==>
              PlainSections(project.tickets[id].completion.value.sections)
  {
    hide Sound, Coherent, PhasesPlaced, SlugIndex, Reloaded, PlainSections, CompletionFits;
    SoundParts(project.Abs(), project.phasesBySlug, project.tree, project.where, project.clock);
    tickets, comments := LoadTickets(project.tree, project.Abs(), project.where);
    phases, bySlug := LoadPhases(project.tree.phases, project.phases, project.phasesBySlug);
    forall id | id in tickets
      ensures tickets[id] == project.tickets[id] <==>
              (project.tickets[id].completion.Some? ==> PlainSections(project.tickets[id].completion.value.sections))
    {
      ReloadedIff(project.tickets[id]);
    }
  }
}
