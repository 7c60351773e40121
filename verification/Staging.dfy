/** Staged operations on the store's tree and the git staging that follows them. */
module Staging {
  /** A path below the repository root, as its segments; `p <= q` says q lies at or beneath p. */
  type Path = seq<string>

  datatype Tree = Tree(files: map<Path, string>, dirs: set<Path>)

  datatype Op = Write(rel: Path) | Rename(from: Path, to: Path) | Remove(rel: Path)

  /** What one op leaves behind; a failed rename may already have made the parent directories. */
  datatype Outcome = Outcome(ok: bool, tree: Tree, staged: map<Path, string>)

  function Parent(p: Path): Path {
    if p == [] then [] else p[..|p| - 1]
  }

  function Prefixes(p: Path): set<Path> {
    set i | 0 <= i <= |p| :: p[..i]
  }

  /** Every directory above a file or a directory exists. */
  ghost predicate WellFormed(t: Tree) {
    && (forall q, p :: q in t.files && p <= q && p != q ==> p in t.dirs)
    && (forall q, p :: q in t.dirs && p <= q ==> p in t.dirs)
  }

  predicate Exists(t: Tree, p: Path) {
    p in t.files || p in t.dirs
  }

  // ----- The three ops -----

  predicate CanMkdir(t: Tree, p: Path) {
    forall q :: q in Prefixes(p) ==> q !in t.files
  }

  function Mkdir(t: Tree, p: Path): Tree {
    t.(dirs := t.dirs + Prefixes(p))
  }

  /** os.Rename of a file or a directory: to must be free, a file under a file, or an empty directory. */
  predicate CanRename(t: Tree, from: Path, to: Path) {
    && Exists(t, from)
    && (from == to || (
      && !(from <= to)
      && (from in t.files ==> to !in t.dirs)
      && (from !in t.files ==> to !in t.files)
      && (forall q :: q in t.files && to <= q ==> q == to)
      && (forall q :: q in t.dirs && to <= q ==> q == to)))
  }

  function Moved(p: Path, from: Path, to: Path): Path {
    if from <= p then to + p[|from|..] else p
  }

  function Arrivals(files: map<Path, string>, from: Path, to: Path): set<Path> {
    set p | p in files && from <= p :: to + p[|from|..]
  }

  lemma ArrivalSource(files: map<Path, string>, from: Path, to: Path, q: Path)
    requires q in Arrivals(files, from, to)
    ensures to <= q && from + q[|to|..] in files
  {
    var p :| p in files && from <= p && q == to + p[|from|..];
    assert q[|to|..] == p[|from|..];
    assert from + p[|from|..] == p;
  }

  function MoveTree(t: Tree, from: Path, to: Path): Tree {
    var kept := set p | p in t.files && !(from <= p);
    var moved := Arrivals(t.files, from, to);
    Tree(map q | q in kept + moved ::
           if q in moved then
             (ArrivalSource(t.files, from, to, q); t.files[from + q[|to|..]])
           else t.files[q],
         set p | p in t.dirs :: Moved(p, from, to))
  }

  /** A rename carries every file over and leaves nothing behind. */
  lemma MoveCarries(t: Tree, from: Path, to: Path, p: Path)
    requires CanRename(t, from, to) && from <= p
    ensures p in t.files ==>
      to + p[|from|..] in MoveTree(t, from, to).files
      && MoveTree(t, from, to).files[to + p[|from|..]] == t.files[p]
    ensures from != to ==> p !in MoveTree(t, from, to).files
  {
    var q, files := to + p[|from|..], MoveTree(t, from, to).files;
    assert from + p[|from|..] == p;
    if p in t.files {
      assert q in Arrivals(t.files, from, to);
      assert q[|to|..] == p[|from|..];
    }
    if from != to && p in Arrivals(t.files, from, to) {
      ArrivalSource(t.files, from, to, p);
      PrefixesComparable(from, to, p);
    }
  }

  lemma PrefixesComparable(a: Path, b: Path, p: Path)
    requires a <= p && b <= p
    ensures a <= b || b <= a
  {
    if |a| <= |b| {
      assert a == b[..|a|];
    } else {
      assert b == a[..|b|];
    }
  }

  function RemoveTree(t: Tree, p: Path): Tree {
    Tree(map q | q in t.files && !(p <= q) :: t.files[q], set q | q in t.dirs && !(p <= q))
  }

  function Apply(t: Tree, staged: map<Path, string>, op: Op, root: Path): Outcome {
    match op
    case Write(rel) =>
      var dest := root + rel;
      if !CanMkdir(t, Parent(dest)) then Outcome(false, t, staged)
      else
        var t' := Mkdir(t, Parent(dest));
        if rel !in staged || dest in t'.dirs then Outcome(false, t', staged)
        else Outcome(true, t'.(files := t'.files[dest := staged[rel]]), staged - {rel})
    case Rename(from, to) =>
      if !CanMkdir(t, Parent(root + to)) then Outcome(false, t, staged)
      else
        var t' := Mkdir(t, Parent(root + to));
        if !CanRename(t', root + from, root + to) then Outcome(false, t', staged)
        else Outcome(true, MoveTree(t', root + from, root + to), staged)
    case Remove(rel) => Outcome(true, RemoveTree(t, root + rel), staged)
  }

  function Touched(op: Op, root: Path): seq<Path> {
    match op
    case Write(rel) => [root + rel]
    case Rename(from, to) => [root + from, root + to]
    case Remove(rel) => [root + rel]
  }

  function RunOps(t: Tree, staged: map<Path, string>, ops: seq<Op>, root: Path): Outcome {
    if ops == [] then Outcome(true, t, staged)
    else
      var n := |ops| - 1;
      var before := RunOps(t, staged, ops[..n], root);
      if !before.ok then before else Apply(before.tree, before.staged, ops[n], root)
  }

  function AllTouched(ops: seq<Op>, root: Path): seq<Path> {
    if ops == [] then [] else AllTouched(ops[..|ops| - 1], root) + Touched(ops[|ops| - 1], root)
  }

  predicate Covered(q: Path, paths: seq<Path>) {
    exists p :: p in paths && p <= q
  }

  predicate Same(a: map<Path, string>, b: map<Path, string>, q: Path) {
    if q in a then q in b && a[q] == b[q] else q !in b
  }

  // ----- Closure: what changed was touched -----

  lemma PrefixJoins(p: Path, q: Path)
    requires p <= q
    ensures p + q[|p|..] == q
  {
  }

  lemma MoveTouches(t: Tree, from: Path, to: Path, q: Path)
    requires CanRename(t, from, to) && !(from <= q) && !(to <= q)
    ensures Same(t.files, MoveTree(t, from, to).files, q)
  {
  }

  /** One op changes file contents only at or beneath the paths it reports. */
  lemma OpTouches(t: Tree, staged: map<Path, string>, op: Op, root: Path, q: Path)
    ensures Same(t.files, Apply(t, staged, op, root).tree.files, q) || Covered(q, Touched(op, root))
  {
    match op
    case Write(rel) =>
      assert root + rel in Touched(op, root);
    case Rename(from, to) =>
      assert root + from in Touched(op, root) && root + to in Touched(op, root);
      var t' := Mkdir(t, Parent(root + to));
      if CanMkdir(t, Parent(root + to)) && CanRename(t', root + from, root + to) && !Covered(q, Touched(op, root)) {
        MoveTouches(t', root + from, root + to, q);
      }
    case Remove(rel) =>
      assert root + rel in Touched(op, root);
  }

  /** Every file that the run changed lies at or beneath a touched path. */
  lemma {:induction false} RunTouches(t: Tree, staged: map<Path, string>, ops: seq<Op>, root: Path, q: Path)
    ensures Same(t.files, RunOps(t, staged, ops, root).tree.files, q) || Covered(q, AllTouched(ops, root))
  {
    if ops != [] {
      var n := |ops| - 1;
      hide Apply, Touched, Same;
      RunTouches(t, staged, ops[..n], root, q);
      var before := RunOps(t, staged, ops[..n], root);
      OpTouches(before.tree, before.staged, ops[n], root, q);
      SameTransitive(t.files, before.tree.files, RunOps(t, staged, ops, root).tree.files, q);
      CoveredGrows(q, AllTouched(ops[..n], root), Touched(ops[n], root));
    }
  }

  lemma SameTransitive(a: map<Path, string>, b: map<Path, string>, c: map<Path, string>, q: Path)
    ensures Same(a, b, q) && Same(b, c, q) ==> Same(a, c, q)
  {
  }

  lemma CoveredGrows(q: Path, a: seq<Path>, b: seq<Path>)
    ensures Covered(q, a) || Covered(q, b) <==> Covered(q, a + b)
  {
    if Covered(q, a) {
      var p :| p in a && p <= q;
      assert p in a + b;
    } else if Covered(q, b) {
      var p :| p in b && p <= q;
      assert p in a + b;
    }
  }

  /** A failed op changes no file. */
  lemma FailedOpKeepsFiles(t: Tree, staged: map<Path, string>, op: Op, root: Path)
    requires !Apply(t, staged, op, root).ok
    ensures Apply(t, staged, op, root).tree.files == t.files
  {
  }

  /** A failing run leaves exactly the files of the ops before the failing one. */
  lemma {:induction false} FailureLeavesPrefix(t: Tree, staged: map<Path, string>, ops: seq<Op>, root: Path)
    returns (n: nat)
    requires !RunOps(t, staged, ops, root).ok
    ensures n < |ops| && RunOps(t, staged, ops[..n], root).ok
    ensures
      var before := RunOps(t, staged, ops[..n], root);
      !Apply(before.tree, before.staged, ops[n], root).ok
      && RunOps(t, staged, ops, root).tree.files == before.tree.files
  {
    n := |ops| - 1;
    var before := RunOps(t, staged, ops[..n], root);
    if before.ok {
      FailedOpKeepsFiles(before.tree, before.staged, ops[n], root);
    } else {
      n := FailureLeavesPrefix(t, staged, ops[..n], root);
      assert ops[..|ops| - 1][..n] == ops[..n];
    }
  }

  // ----- What a run leaves at a path -----

  /** The op does nothing at q: it writes elsewhere, and moves and removes nothing q lies at or beneath. */
  predicate Clear(op: Op, root: Path, q: Path) {
    match op
    case Write(rel) => root + rel != q
    case Rename(from, to) => !(root + from <= q) && !(root + to <= q)
    case Remove(rel) => !(root + rel <= q)
  }

  predicate ClearFrom(ops: seq<Op>, root: Path, i: nat, q: Path) {
    forall j :: i <= j < |ops| ==> Clear(ops[j], root, q)
  }

  lemma OpLeaves(t: Tree, staged: map<Path, string>, op: Op, root: Path, q: Path)
    requires Clear(op, root, q)
    ensures Same(t.files, Apply(t, staged, op, root).tree.files, q)
  {
    if op.Rename? && CanMkdir(t, Parent(root + op.to)) {
      var t' := Mkdir(t, Parent(root + op.to));
      if CanRename(t', root + op.from, root + op.to) {
        MoveTouches(t', root + op.from, root + op.to, q);
      }
    }
  }

  /** What one op does to the files when it succeeds, path by path. */
  lemma OpMeans(t: Tree, staged: map<Path, string>, op: Op, root: Path)
    requires Apply(t, staged, op, root).ok
    ensures
      var after := Apply(t, staged, op, root);
      match op
      case Write(rel) =>
        && rel in staged && root + rel in after.tree.files && after.tree.files[root + rel] == staged[rel]
        && after.staged == staged - {rel}
      case Rename(from, to) =>
        && after.staged == staged
        && forall s :: root + from + s in t.files ==>
          root + to + s in after.tree.files && after.tree.files[root + to + s] == t.files[root + from + s]
      case Remove(rel) => after.staged == staged && forall q :: q in after.tree.files ==> !(root + rel <= q)
  {
    if op.Rename? {
      var t', from, to := Mkdir(t, Parent(root + op.to)), root + op.from, root + op.to;
      forall s | from + s in t.files
        ensures to + s in MoveTree(t', from, to).files && MoveTree(t', from, to).files[to + s] == t.files[from + s]
      {
        assert (from + s)[|from|..] == s;
        MoveCarries(t', from, to, from + s);
      }
    }
  }

  lemma RenameEmpties(t: Tree, staged: map<Path, string>, from: Path, to: Path, root: Path, s: Path)
    requires Apply(t, staged, Rename(from, to), root).ok && from != to
    ensures root + from + s !in Apply(t, staged, Rename(from, to), root).tree.files
  {
    var t' := Mkdir(t, Parent(root + to));
    assert (root + from)[|root|..] == from && (root + to)[|root|..] == to;
    MoveCarries(t', root + from, root + to, root + from + s);
  }

  lemma {:induction false} PrefixRuns(t: Tree, staged: map<Path, string>, ops: seq<Op>, i: nat, root: Path)
    requires i <= |ops| && RunOps(t, staged, ops, root).ok
    ensures RunOps(t, staged, ops[..i], root).ok
    decreases |ops|
  {
    if i == |ops| {
      assert ops[..i] == ops;
    } else {
      var n := |ops| - 1;
      assert ops[..n][..i] == ops[..i];
      PrefixRuns(t, staged, ops[..n], i, root);
    }
  }

  lemma OneOp(t: Tree, staged: map<Path, string>, ops: seq<Op>, i: nat, root: Path)
    requires i < |ops| && RunOps(t, staged, ops, root).ok
    ensures
      var before := RunOps(t, staged, ops[..i], root);
      && before.ok && Apply(before.tree, before.staged, ops[i], root).ok
      && RunOps(t, staged, ops[..i + 1], root) == Apply(before.tree, before.staged, ops[i], root)
  {
    PrefixRuns(t, staged, ops, i + 1, root);
    RunOneMore(t, staged, ops, i, root);
    hide RunOps, Apply;
  }

  /** Ops that are clear of a path leave its file as it was after the first i. */
  lemma {:induction false} RunLeaves(t: Tree, staged: map<Path, string>, ops: seq<Op>, i: nat, root: Path, q: Path)
    requires i <= |ops| && ClearFrom(ops, root, i, q)
    ensures RunOps(t, staged, ops, root).ok ==>
      Same(RunOps(t, staged, ops[..i], root).tree.files, RunOps(t, staged, ops, root).tree.files, q)
    decreases |ops|
  {
    if i == |ops| {
      assert ops[..i] == ops;
    } else if RunOps(t, staged, ops, root).ok {
      var n := |ops| - 1;
      hide Apply, Clear;
      assert ops[..n][..i] == ops[..i];
      RunLeaves(t, staged, ops[..n], i, root, q);
      var before := RunOps(t, staged, ops[..n], root);
      OpLeaves(before.tree, before.staged, ops[n], root, q);
      SameTransitive(RunOps(t, staged, ops[..i], root).tree.files, before.tree.files,
                     RunOps(t, staged, ops, root).tree.files, q);
    }
  }

  /** Staged contents are used up, never altered. */
  lemma {:induction false} StagedOnlyShrinks(t: Tree, staged: map<Path, string>, ops: seq<Op>, root: Path, rel: Path)
    ensures rel in RunOps(t, staged, ops, root).staged ==>
      rel in staged && RunOps(t, staged, ops, root).staged[rel] == staged[rel]
  {
    if ops != [] {
      var n := |ops| - 1;
      StagedOnlyShrinks(t, staged, ops[..n], root, rel);
      var before := RunOps(t, staged, ops[..n], root);
      hide CanMkdir, CanRename, Mkdir, MoveTree, RemoveTree;
    }
  }

  /** A successful run leaves at a written path what was staged for it, unless a later op reaches there. */
  lemma WrittenStays(t: Tree, staged: map<Path, string>, ops: seq<Op>, i: nat, root: Path)
    requires i < |ops| && ops[i].Write? && RunOps(t, staged, ops, root).ok
    requires ClearFrom(ops, root, i + 1, root + ops[i].rel)
    ensures
      var files, rel := RunOps(t, staged, ops, root).tree.files, ops[i].rel;
      rel in staged && root + rel in files && files[root + rel] == staged[rel]
  {
    hide RunOps, Apply, Clear;
    var before := RunOps(t, staged, ops[..i], root);
    OneOp(t, staged, ops, i, root);
    OpMeans(before.tree, before.staged, ops[i], root);
    StagedOnlyShrinks(t, staged, ops[..i], root, ops[i].rel);
    RunLeaves(t, staged, ops, i + 1, root, root + ops[i].rel);
  }

  /** Nothing is left at or beneath a removed path, unless a later op reaches there. */
  lemma RemovedStays(t: Tree, staged: map<Path, string>, ops: seq<Op>, i: nat, root: Path, q: Path)
    requires i < |ops| && ops[i].Remove? && RunOps(t, staged, ops, root).ok
    requires root + ops[i].rel <= q && ClearFrom(ops, root, i + 1, q)
    ensures q !in RunOps(t, staged, ops, root).tree.files
  {
    hide RunOps, Apply, Clear;
    var before := RunOps(t, staged, ops[..i], root);
    OneOp(t, staged, ops, i, root);
    OpMeans(before.tree, before.staged, ops[i], root);
    RunLeaves(t, staged, ops, i + 1, root, q);
  }

  /** A rename carries each file that no other op reaches from under the one path to under the other. */
  lemma RenamedCarries(t: Tree, staged: map<Path, string>, ops: seq<Op>, i: nat, root: Path, s: Path)
    requires i < |ops| && ops[i].Rename? && RunOps(t, staged, ops, root).ok
    requires root + ops[i].from + s in t.files && ClearFrom(ops[..i], root, 0, root + ops[i].from + s)
    ensures
      var files, from, to := RunOps(t, staged, ops, root).tree.files, root + ops[i].from + s, root + ops[i].to + s;
      && (ClearFrom(ops, root, i + 1, to) ==> to in files && files[to] == t.files[from])
      && (ops[i].from != ops[i].to && ClearFrom(ops, root, i + 1, from) ==> from !in files)
  {
    var from, to := root + ops[i].from + s, root + ops[i].to + s;
    var before := RunOps(t, staged, ops[..i], root);
    RunNothing(t, staged, root);
    hide RunOps, Apply, Clear;
    assert ops[..i][..0] == [];
    OneOp(t, staged, ops, i, root);
    RunLeaves(t, staged, ops[..i], 0, root, from);
    OpMeans(before.tree, before.staged, ops[i], root);
    if ops[i].from != ops[i].to {
      RenameEmpties(before.tree, before.staged, ops[i].from, ops[i].to, root, s);
    }
    if ClearFrom(ops, root, i + 1, to) {
      RunLeaves(t, staged, ops, i + 1, root, to);
    }
    if ClearFrom(ops, root, i + 1, from) {
      RunLeaves(t, staged, ops, i + 1, root, from);
    }
  }

  // ----- When a run succeeds -----

  /** A write fails only for want of its staged file, under a file, or onto a directory. */
  lemma WriteSucceedsIff(t: Tree, staged: map<Path, string>, rel: Path, root: Path)
    requires rel != []
    ensures Apply(t, staged, Write(rel), root).ok <==>
      && rel in staged && root + rel !in t.dirs
      && forall k :: 0 <= k < |root + rel| ==> (root + rel)[..k] !in t.files
  {
    var dest := root + rel;
    forall k | 0 <= k < |dest| ensures Parent(dest)[..k] == dest[..k] && dest[..k] in Prefixes(Parent(dest)) {
    }
    forall q | q in Prefixes(Parent(dest)) ensures exists k :: 0 <= k < |dest| && q == dest[..k] {
      var k :| 0 <= k <= |Parent(dest)| && q == Parent(dest)[..k];
      assert q == dest[..k];
    }
  }

  lemma RemoveSucceeds(t: Tree, staged: map<Path, string>, rel: Path, root: Path)
    ensures Apply(t, staged, Remove(rel), root).ok
  {
  }

  /** A rename of something that exists to a free place, not beneath itself and not under a file, succeeds. */
  lemma RenameSucceeds(t: Tree, staged: map<Path, string>, from: Path, to: Path, root: Path)
    requires to != [] && Exists(t, root + from) && !(root + from <= root + to) && !(root + to <= root + from)
    requires forall q :: root + to <= q ==> q !in t.files && q !in t.dirs
    requires forall k :: 0 <= k < |root + to| ==> (root + to)[..k] !in t.files
    ensures Apply(t, staged, Rename(from, to), root).ok
  {
    var t', dest := Mkdir(t, Parent(root + to)), root + to;
    forall q | q in Prefixes(Parent(dest)) ensures q !in t.files && !(dest <= q) {
      var k :| 0 <= k <= |Parent(dest)| && q == Parent(dest)[..k];
      assert q == dest[..k];
    }
    assert CanRename(t', root + from, dest);
  }

  /** Distinct writes, none beneath another. */
  ghost predicate SeparateWrites(ops: seq<Op>) {
    && (forall i :: 0 <= i < |ops| ==> ops[i].Write? && ops[i].rel != [])
    && (forall i, j :: 0 <= i < |ops| && 0 <= j < |ops| && i != j ==> !(ops[i].rel <= ops[j].rel))
  }

  /** No file stands in the way of a destination, and no directory at it. */
  ghost predicate RoomFor(t: Tree, root: Path, rel: Path) {
    root + rel !in t.dirs && forall k :: 0 <= k < |root + rel| ==> (root + rel)[..k] !in t.files
  }

  ghost predicate HaveRoom(t: Tree, root: Path, ops: seq<Op>) {
    SeparateWrites(ops) && forall i :: 0 <= i < |ops| ==> RoomFor(t, root, ops[i].rel)
  }

  /** After n of the writes only their destinations and the directories above them have been added. */
  ghost predicate WritesDone(t: Tree, staged: map<Path, string>, ops: seq<Op>, root: Path, out: Outcome)
    requires forall i :: 0 <= i < |ops| ==> ops[i].Write?
  {
    && out.ok
    && (forall q :: q in out.tree.files ==> q in t.files || exists j :: 0 <= j < |ops| && q == root + ops[j].rel)
    && (forall q :: q in out.tree.dirs ==>
          q in t.dirs || exists j :: 0 <= j < |ops| && q <= root + ops[j].rel && q != root + ops[j].rel)
    && (forall rel :: rel in staged && (forall j :: 0 <= j < |ops| ==> ops[j].rel != rel) ==> rel in out.staged)
  }

  lemma PrefixUnder(root: Path, a: Path, b: Path)
    ensures root + a <= root + b <==> a <= b
    ensures root + a == root + b <==> a == b
  {
    assert (root + a)[|root|..] == a && (root + b)[|root|..] == b;
    if root + a <= root + b {
      assert (root + b)[..|root + a|] == root + a;
      assert b[..|a|] == (root + b)[|root|..|root| + |a|] == a;
    }
  }

  lemma WriteAfterWrites(t: Tree, staged: map<Path, string>, ops: seq<Op>, root: Path, out: Outcome)
    requires ops != [] && SeparateWrites(ops) && RoomFor(t, root, ops[|ops| - 1].rel)
    requires ops[|ops| - 1].rel in staged && WritesDone(t, staged, ops[..|ops| - 1], root, out)
    ensures Apply(out.tree, out.staged, ops[|ops| - 1], root).ok
  {
    var n := |ops| - 1;
    var rel := ops[n].rel;
    hide Apply;
    forall j | 0 <= j < n ensures !(root + ops[j].rel <= root + rel) && !(root + rel <= root + ops[j].rel) {
      PrefixUnder(root, ops[j].rel, rel);
      PrefixUnder(root, rel, ops[j].rel);
    }
    forall k | 0 <= k < |root + rel| ensures (root + rel)[..k] !in out.tree.files {
      assert (root + rel)[..k] <= root + rel;
    }
    WriteSucceedsIff(out.tree, out.staged, rel, root);
  }

  lemma WritesDoneStep(t: Tree, staged: map<Path, string>, ops: seq<Op>, root: Path, out: Outcome)
    requires ops != [] && SeparateWrites(ops) && WritesDone(t, staged, ops[..|ops| - 1], root, out)
    requires Apply(out.tree, out.staged, ops[|ops| - 1], root).ok
    ensures WritesDone(t, staged, ops, root, Apply(out.tree, out.staged, ops[|ops| - 1], root))
  {
    var n := |ops| - 1;
    var dest, after := root + ops[n].rel, Apply(out.tree, out.staged, ops[n], root);
    forall q | q in after.tree.dirs && q !in out.tree.dirs ensures q <= dest && q != dest {
      var k :| 0 <= k <= |Parent(dest)| && q == Parent(dest)[..k];
      assert q == dest[..k];
    }
    forall q | q in after.tree.dirs
      ensures q in t.dirs || exists j :: 0 <= j < |ops| && q <= root + ops[j].rel && q != root + ops[j].rel
    {
      if q in out.tree.dirs && q !in t.dirs {
        var j :| 0 <= j < n && q <= root + ops[..n][j].rel && q != root + ops[..n][j].rel;
        assert q <= root + ops[j].rel;
      }
    }
    forall q | q in after.tree.files ensures q in t.files || exists j :: 0 <= j < |ops| && q == root + ops[j].rel {
      if q != dest && q !in t.files {
        var j :| 0 <= j < n && q == root + ops[..n][j].rel;
        assert q == root + ops[j].rel;
      }
    }
    forall rel | rel in staged && forall j :: 0 <= j < |ops| ==> ops[j].rel != rel ensures rel in after.staged {
      assert forall j :: 0 <= j < n ==> ops[..n][j].rel != rel;
    }
  }

  lemma {:induction false} WritesAllRun(t: Tree, staged: map<Path, string>, ops: seq<Op>, root: Path)
    requires HaveRoom(t, root, ops) && forall i :: 0 <= i < |ops| ==> ops[i].rel in staged
    ensures WritesDone(t, staged, ops, root, RunOps(t, staged, ops, root))
  {
    if ops != [] {
      var n := |ops| - 1;
      WritesAllRun(t, staged, ops[..n], root);
      hide Apply, RoomFor, WritesDone;
      WriteAfterWrites(t, staged, ops, root, RunOps(t, staged, ops[..n], root));
      WritesDoneStep(t, staged, ops, root, RunOps(t, staged, ops[..n], root));
      RunsOk(t, staged, ops[..n], root);
    }
  }

  /** Staged writes to separate places with room for them all land. */
  lemma SeparateWritesLand(t: Tree, staged: map<Path, string>, ops: seq<Op>, root: Path)
    requires HaveRoom(t, root, ops) && forall i :: 0 <= i < |ops| ==> ops[i].rel in staged
    ensures
      var after := RunOps(t, staged, ops, root);
      after.ok && forall i :: 0 <= i < |ops| ==>
        root + ops[i].rel in after.tree.files && after.tree.files[root + ops[i].rel] == staged[ops[i].rel]
  {
    hide RunOps, WritesDone, Clear, ClearFrom;
    WritesAllRun(t, staged, ops, root);
    RunsOk(t, staged, ops, root);
    forall i | 0 <= i < |ops|
      ensures root + ops[i].rel in RunOps(t, staged, ops, root).tree.files
      ensures RunOps(t, staged, ops, root).tree.files[root + ops[i].rel] == staged[ops[i].rel]
    {
      LaterWritesClear(ops, root, i);
      WrittenStays(t, staged, ops, i, root);
    }
  }

  lemma RunsOk(t: Tree, staged: map<Path, string>, ops: seq<Op>, root: Path)
    requires SeparateWrites(ops) && WritesDone(t, staged, ops, root, RunOps(t, staged, ops, root))
    ensures RunOps(t, staged, ops, root).ok
  {
  }

  lemma LaterWritesClear(ops: seq<Op>, root: Path, i: nat)
    requires SeparateWrites(ops) && i < |ops|
    ensures ClearFrom(ops, root, i + 1, root + ops[i].rel)
  {
    forall j | i < j < |ops| ensures Clear(ops[j], root, root + ops[i].rel) {
      PrefixUnder(root, ops[j].rel, ops[i].rel);
    }
  }

  // ----- The tree stays well formed -----

  lemma MkdirKeeps(t: Tree, p: Path)
    requires WellFormed(t)
    ensures WellFormed(Mkdir(t, p))
  {
    var t' := Mkdir(t, p);
    forall q, r | q in t'.dirs && r <= q ensures r in t'.dirs {
      if q !in t.dirs {
        var i :| 0 <= i <= |p| && q == p[..i];
        assert r == p[..|r|];
      }
    }
  }

  lemma WriteKeeps(t: Tree, dest: Path, content: string)
    requires WellFormed(t) && dest != []
    ensures WellFormed(Mkdir(t, Parent(dest)).(files := t.files[dest := content]))
  {
    MkdirKeeps(t, Parent(dest));
    forall p | p <= dest && p != dest ensures p in Prefixes(Parent(dest)) {
      assert p == Parent(dest)[..|p|];
    }
  }

  lemma RemoveKeeps(t: Tree, p: Path)
    requires WellFormed(t)
    ensures WellFormed(RemoveTree(t, p))
  {
  }

  lemma MovedDir(t: Tree, from: Path, to: Path, q: Path)
    requires q in t.dirs
    ensures Moved(q, from, to) in MoveTree(t, from, to).dirs
  {
  }

  /** The directory part of MoveKeeps: above something moved. */
  lemma AboveMoved(t: Tree, from: Path, to: Path, s: Path, p: Path)
    requires WellFormed(t) && CanRename(t, from, to) && Parent(to) in t.dirs && to != []
    requires p <= to + s && ((from + s in t.files && p != to + s) || from + s in t.dirs)
    ensures p in MoveTree(t, from, to).dirs
  {
    if to <= p {
      var r := p[|to|..];
      assert p == to + r && r == s[..|r|];
      assert from + r <= from + s;
      assert from + r in t.dirs;
      MovedDir(t, from, to, from + r);
      assert Moved(from + r, from, to) == p;
    } else {
      assert p == to[..|p|] == Parent(to)[..|p|];
      assert p <= Parent(to);
      assert !(from <= p);
      MovedDir(t, from, to, p);
    }
  }

  lemma AboveKept(t: Tree, from: Path, to: Path, q: Path, p: Path)
    requires WellFormed(t) && !(from <= q) && p <= q && ((q in t.files && p != q) || q in t.dirs)
    ensures p in MoveTree(t, from, to).dirs
  {
    assert !(from <= p);
    MovedDir(t, from, to, p);
  }

  lemma MoveKeeps(t: Tree, from: Path, to: Path)
    requires WellFormed(t) && CanRename(t, from, to) && Parent(to) in t.dirs && to != []
    ensures WellFormed(MoveTree(t, from, to))
  {
    var t' := MoveTree(t, from, to);
    forall q, p | q in t'.files && p <= q && p != q ensures p in t'.dirs {
      if x :| x in t.files && from <= x && q == to + x[|from|..] {
        PrefixJoins(from, x);
        AboveMoved(t, from, to, x[|from|..], p);
      } else {
        AboveKept(t, from, to, q, p);
      }
    }
    forall q, p | q in t'.dirs && p <= q ensures p in t'.dirs {
      var x :| x in t.dirs && q == Moved(x, from, to);
      if from <= x {
        PrefixJoins(from, x);
        AboveMoved(t, from, to, x[|from|..], p);
      } else {
        AboveKept(t, from, to, x, p);
      }
    }
  }

  predicate ProperOp(op: Op) {
    match op
    case Write(rel) => rel != []
    case Rename(from, to) => from != [] && to != []
    case Remove(rel) => rel != []
  }

  lemma ParentMade(t: Tree, p: Path)
    ensures p in Mkdir(t, p).dirs
  {
    assert p[..|p|] == p;
  }

  lemma ApplyKeeps(t: Tree, staged: map<Path, string>, op: Op, root: Path)
    requires WellFormed(t) && ProperOp(op)
    ensures WellFormed(Apply(t, staged, op, root).tree)
  {
    hide WellFormed, MoveTree, RemoveTree, CanMkdir, CanRename, Mkdir;
    match op
    case Write(rel) =>
      MkdirKeeps(t, Parent(root + rel));
      if rel in staged {
        WriteKeeps(t, root + rel, staged[rel]);
      }
      assert Mkdir(t, Parent(root + rel)).files == t.files by {
        MkdirFiles(t, Parent(root + rel));
      }
    case Rename(from, to) =>
      var t' := Mkdir(t, Parent(root + to));
      MkdirKeeps(t, Parent(root + to));
      ParentMade(t, Parent(root + to));
      if CanRename(t', root + from, root + to) {
        MoveKeeps(t', root + from, root + to);
      }
    case Remove(rel) =>
      RemoveKeeps(t, root + rel);
  }

  lemma MkdirFiles(t: Tree, p: Path)
    ensures Mkdir(t, p).files == t.files
  {
  }

  lemma {:induction false} RunKeeps(t: Tree, staged: map<Path, string>, ops: seq<Op>, root: Path)
    requires WellFormed(t) && forall op :: op in ops ==> ProperOp(op)
    ensures WellFormed(RunOps(t, staged, ops, root).tree)
  {
    if ops != [] {
      var n := |ops| - 1;
      RunKeeps(t, staged, ops[..n], root);
      var before := RunOps(t, staged, ops[..n], root);
      ApplyKeeps(before.tree, before.staged, ops[n], root);
    }
  }

  // ----- Staging into the git index -----

  /** go-git's Add on something that exists records everything at or beneath it. */
  function Sync(index: map<Path, string>, t: Tree, p: Path): map<Path, string> {
    map q | q in index.Keys + t.files.Keys && (if p <= q then q in t.files else q in index)
      :: if p <= q then t.files[q] else index[q]
  }

  lemma SyncAt(index: map<Path, string>, t: Tree, p: Path, q: Path)
    ensures if p <= q then Same(Sync(index, t, p), t.files, q) else Same(Sync(index, t, p), index, q)
  {
  }

  predicate Vanished(t: Tree, p: Path) {
    !Exists(t, p)
  }

  lemma NothingBeneath(t: Tree, p: Path, q: Path)
    requires WellFormed(t) && Vanished(t, p) && p <= q
    ensures q !in t.files
  {
  }

  function SyncAll(index: map<Path, string>, t: Tree, paths: seq<Path>): map<Path, string> {
    if paths == [] then index else Sync(SyncAll(index, t, paths[..|paths| - 1]), t, paths[|paths| - 1])
  }

  /** After staging, the index matches the tree at every covered path and is untouched elsewhere. */
  lemma {:induction false} SyncAllAt(index: map<Path, string>, t: Tree, paths: seq<Path>, q: Path)
    ensures
      if Covered(q, paths) then Same(SyncAll(index, t, paths), t.files, q)
      else Same(SyncAll(index, t, paths), index, q)
  {
    if paths != [] {
      var n := |paths| - 1;
      SyncAllAt(index, t, paths[..n], q);
      SyncAt(SyncAll(index, t, paths[..n]), t, paths[n], q);
      assert paths == paths[..n] + [paths[n]];
      CoveredGrows(q, paths[..n], [paths[n]]);
      assert paths[n] in [paths[n]];
      assert Covered(q, [paths[n]]) <==> paths[n] <= q;
    }
  }

  /** Staging the touched paths makes index and tree agree wherever they agreed before the run. */
  lemma StagingCloses(index: map<Path, string>, t: Tree, staged: map<Path, string>, ops: seq<Op>, root: Path, q: Path)
    requires Same(index, t.files, q)
    ensures
      var after := RunOps(t, staged, ops, root).tree;
      Same(SyncAll(index, after, AllTouched(ops, root)), after.files, q)
  {
    hide RunOps, AllTouched, SyncAll;
    var after, touched := RunOps(t, staged, ops, root).tree, AllTouched(ops, root);
    SyncAllAt(index, after, touched, q);
    RunTouches(t, staged, ops, root, q);
  }

  /** What a commit owes its caller: each write that no later op reaches is on disk as staged, nothing is
      left where a remove was the last to reach, and each file that only a rename reaches has moved. */
  ghost predicate CommitDone(before: map<Path, string>, staged: map<Path, string>, ops: seq<Op>, root: Path,
                             files: map<Path, string>)
  {
    && (forall i :: 0 <= i < |ops| && ops[i].Write? && ClearFrom(ops, root, i + 1, root + ops[i].rel) ==>
          ops[i].rel in staged && root + ops[i].rel in files && files[root + ops[i].rel] == staged[ops[i].rel])
    && (forall i, q :: 0 <= i < |ops| && ops[i].Remove? && root + ops[i].rel <= q && ClearFrom(ops, root, i + 1, q) ==>
          q !in files)
    && (forall i, s :: 0 <= i < |ops| && ops[i].Rename? && root + ops[i].from + s in before
                       && ClearFrom(ops[..i], root, 0, root + ops[i].from + s) ==>
          && (ClearFrom(ops, root, i + 1, root + ops[i].to + s) ==>
                root + ops[i].to + s in files && files[root + ops[i].to + s] == before[root + ops[i].from + s])
          && (ops[i].from != ops[i].to && ClearFrom(ops, root, i + 1, root + ops[i].from + s) ==>
                root + ops[i].from + s !in files))
  }

  lemma RunDoesAll(t: Tree, staged: map<Path, string>, ops: seq<Op>, root: Path)
    requires RunOps(t, staged, ops, root).ok
    ensures CommitDone(t.files, staged, ops, root, RunOps(t, staged, ops, root).tree.files)
  {
    hide RunOps, Clear, ClearFrom;
    var files := RunOps(t, staged, ops, root).tree.files;
    forall i | 0 <= i < |ops| && ops[i].Write? && ClearFrom(ops, root, i + 1, root + ops[i].rel)
      ensures ops[i].rel in staged && root + ops[i].rel in files && files[root + ops[i].rel] == staged[ops[i].rel]
    {
      WrittenStays(t, staged, ops, i, root);
    }
    forall i, q | 0 <= i < |ops| && ops[i].Remove? && root + ops[i].rel <= q && ClearFrom(ops, root, i + 1, q)
      ensures q !in files
    {
      RemovedStays(t, staged, ops, i, root, q);
    }
    forall i, s | 0 <= i < |ops| && ops[i].Rename? && root + ops[i].from + s in t.files
                  && ClearFrom(ops[..i], root, 0, root + ops[i].from + s)
      ensures ClearFrom(ops, root, i + 1, root + ops[i].to + s) ==>
        root + ops[i].to + s in files && files[root + ops[i].to + s] == t.files[root + ops[i].from + s]
      ensures ops[i].from != ops[i].to && ClearFrom(ops, root, i + 1, root + ops[i].from + s) ==>
        root + ops[i].from + s !in files
    {
      RenamedCarries(t, staged, ops, i, root, s);
    }
  }

  /** Whatever an op of the run touched, and all beneath it, is in the index as it is on disk. */
  lemma {:induction false} TouchedByRun(ops: seq<Op>, root: Path, i: nat, q: Path)
    requires i < |ops| && Covered(q, Touched(ops[i], root))
    ensures Covered(q, AllTouched(ops, root))
  {
    var n := |ops| - 1;
    if i < n {
      TouchedByRun(ops[..n], root, i, q);
    }
    CoveredGrows(q, AllTouched(ops[..n], root), Touched(ops[n], root));
  }

  ghost predicate IndexFollows(ops: seq<Op>, root: Path, index: map<Path, string>, files: map<Path, string>) {
    forall i, q :: 0 <= i < |ops| && Covered(q, Touched(ops[i], root)) ==> Same(index, files, q)
  }

  lemma IndexDoesFollow(index: map<Path, string>, t: Tree, ops: seq<Op>, root: Path)
    ensures IndexFollows(ops, root, SyncAll(index, t, AllTouched(ops, root)), t.files)
  {
    hide SyncAll, AllTouched, Touched, Covered, Same;
    forall i, q | 0 <= i < |ops| && Covered(q, Touched(ops[i], root))
      ensures Same(SyncAll(index, t, AllTouched(ops, root)), t.files, q)
    {
      TouchedByRun(ops, root, i, q);
      SyncAllAt(index, t, AllTouched(ops, root), q);
    }
  }

  /** So a written path is in the index with the same content. */
  lemma IndexHasWritten(ops: seq<Op>, root: Path, index: map<Path, string>, files: map<Path, string>, i: nat)
    requires IndexFollows(ops, root, index, files) && i < |ops| && ops[i].Write? && root + ops[i].rel in files
    ensures root + ops[i].rel in index && index[root + ops[i].rel] == files[root + ops[i].rel]
  {
    var dest := root + ops[i].rel;
    assert dest in Touched(ops[i], root) && dest <= dest;
    assert Covered(dest, Touched(ops[i], root)) && Same(index, files, dest);
  }

  class Repo {
    var tree: Tree
    var index: map<Path, string>

    /** wt.Add: fails with "entry not found" on a vanished path the index does not list by name. */
    method Add(p: Path) returns (ok: bool)
      modifies this`index
      ensures ok <==> !Vanished(tree, p) || p in old(index)
      ensures !ok ==> index == old(index)
      ensures ok && !Vanished(tree, p) ==> index == Sync(old(index), tree, p)
      ensures ok && Vanished(tree, p) ==> index == old(index) - {p}
    {
      if Exists(tree, p) {
        index := Sync(index, tree, p);
        return true;
      }
      if p !in index {
        return false;
      }
      index := index - {p};
      return true;
    }

    /** stageRemovedUnder: the names are collected first and staged one by one. */
    method StageRemovedUnder(rel: Path) returns (ok: bool)
      requires WellFormed(tree) && Vanished(tree, rel)
      modifies this`index
      ensures ok && index == Sync(old(index), tree, rel)
    {
      var gone := set q | q in index && rel <= q;
      ghost var all := gone;
      while gone != {}
        invariant gone <= all && index == old(index) - (all - gone)
        decreases |gone|
      {
        var name :| name in gone;
        assert Vanished(tree, name) by {
          assert rel <= name;
        }
        gone := gone - {name};
        ok := Add(name);
        if !ok {
          return;
        }
      }
      ok := true;
      assert index == old(index) - all;
      forall q | rel <= q ensures q !in tree.files {
        NothingBeneath(tree, rel, q);
      }
    }

    /** The staging half of gitCommit: no touched path makes it give up. */
    method StagePaths(paths: seq<Path>) returns (ok: bool)
      requires WellFormed(tree)
      modifies this`index
      ensures ok && index == SyncAll(old(index), tree, paths)
    {
      for i := 0 to |paths|
        invariant index == SyncAll(old(index), tree, paths[..i])
      {
        assert paths[..i + 1][..i] == paths[..i];
        if Exists(tree, paths[i]) {
          ok := Add(paths[i]);
        } else {
          ok := StageRemovedUnder(paths[i]);
        }
        if !ok {
          return;
        }
      }
      ok := true;
      assert paths[..|paths|] == paths;
    }
  }

  class StageOp {
    const repo: Repo
    const root: Path
    var staged: map<Path, string>
    var ops: seq<Op>
    var committed: bool
    var aborted: bool

    constructor (repo: Repo, root: Path)
      ensures this.repo == repo && this.root == root && IsOpen() && staged == map[] && ops == []
    {
      this.repo, this.root, staged, ops, committed, aborted := repo, root, map[], [], false, false;
    }

    predicate IsOpen()
      reads this
    {
      !committed && !aborted
    }

    predicate Valid()
      reads this
    {
      && (forall op :: op in ops ==> ProperOp(op))
      && (IsOpen() ==> forall op :: op in ops && op.Write? ==> op.rel in staged)
    }

    /** A staged file needs its parents to be directories of the staging area. */
    predicate CanStage(rel: Path)
      reads this
    {
      IsOpen() && rel != [] && forall q :: q in staged && q != rel ==> !(q <= rel) && !(rel <= q)
    }

    method Write(rel: Path, content: string) returns (ok: bool)
      requires Valid()
      modifies this
      ensures Valid() && committed == old(committed) && aborted == old(aborted)
      ensures ok <==>
        old(IsOpen()) && rel != [] && forall q :: q in old(staged) && q != rel ==> !(q <= rel) && !(rel <= q)
      ensures ok ==> staged == old(staged)[rel := content] && ops == old(ops) + [Op.Write(rel)]
      ensures !ok ==> staged == old(staged) && ops == old(ops)
    {
      ok := CanStage(rel);
      if ok {
        staged, ops := staged[rel := content], ops + [Op.Write(rel)];
      }
    }

    method RenameDir(from: Path, to: Path) returns (ok: bool)
      requires Valid()
      modifies this`ops
      ensures Valid() && ok == (IsOpen() && from != [] && to != [])
      ensures ops == if ok then old(ops) + [Rename(from, to)] else old(ops)
    {
      ok := IsOpen() && from != [] && to != [];
      if ok {
        ops := ops + [Rename(from, to)];
      }
    }

    method RemovePath(rel: Path) returns (ok: bool)
      requires Valid()
      modifies this`ops
      ensures Valid() && ok == (IsOpen() && rel != [])
      ensures ops == if ok then old(ops) + [Remove(rel)] else old(ops)
    {
      ok := IsOpen() && rel != [];
      if ok {
        ops := ops + [Remove(rel)];
      }
    }

    method Abort()
      requires Valid()
      modifies this`aborted, this`staged
      ensures Valid() && aborted == (old(aborted) || !committed)
      ensures staged == if old(IsOpen()) then map[] else old(staged)
    {
      if committed || aborted {
        return;
      }
      aborted := true;
      staged := map[];
    }

    /** The loop over the ops, which stops at the first that fails. */
    method ApplyOps() returns (ok: bool, touched: seq<Path>)
      requires Valid() && WellFormed(repo.tree)
      modifies this`staged, repo`tree
      ensures WellFormed(repo.tree) && ok == RunOps(old(repo.tree), old(staged), ops, root).ok
      ensures repo.tree == RunOps(old(repo.tree), old(staged), ops, root).tree
      ensures ok ==> touched == AllTouched(ops, root)
    {
      hide Apply, Touched, WellFormed, RunOps, AllTouched;
      touched := [];
      RunNothing(repo.tree, staged, root);
      for i := 0 to |ops|
        invariant RunOps(old(repo.tree), old(staged), ops[..i], root) == Outcome(true, repo.tree, staged)
        invariant touched == AllTouched(ops[..i], root) && WellFormed(repo.tree)
      {
        ApplyKeeps(repo.tree, staged, ops[i], root);
        RunOneMore(old(repo.tree), old(staged), ops, i, root);
        var out := Apply(repo.tree, staged, ops[i], root);
        repo.tree, staged := out.tree, out.staged;
        if !out.ok {
          FirstFailureStops(old(repo.tree), old(staged), ops, i + 1, root);
          return false, touched;
        }
        touched := touched + Touched(ops[i], root);
      }
      assert ops[..|ops|] == ops;
      ok := true;
    }

    /** Applies the ops in order; a failing one leaves what came before it and stages nothing. */
    method Commit(autoCommit: bool) returns (ok: bool)
      requires Valid() && WellFormed(repo.tree)
      modifies this, repo
      ensures WellFormed(repo.tree) && committed == (old(committed) || !old(aborted))
      ensures !old(IsOpen()) ==> !ok && repo.tree == old(repo.tree) && repo.index == old(repo.index)
      ensures old(IsOpen()) ==>
        var run := RunOps(old(repo.tree), old(staged), old(ops), root);
        ok == run.ok && repo.tree == run.tree
      ensures ok ==> CommitDone(old(repo.tree.files), old(staged), old(ops), root, repo.tree.files)
      ensures ok && autoCommit ==> IndexFollows(old(ops), root, repo.index, repo.tree.files)
      ensures old(IsOpen()) && HaveRoom(old(repo.tree), root, old(ops)) ==> ok
      ensures repo.index ==
        if ok && autoCommit then SyncAll(old(repo.index), repo.tree, AllTouched(old(ops), root)) else old(repo.index)
    {
      if committed {
        return false;
      }
      if aborted {
        return false;
      }
      hide WellFormed, SyncAll, RunOps, AllTouched, CommitDone, IndexFollows, HaveRoom, Valid;
      CommitPromises(repo.tree, repo.index, staged, ops, root);
      committed := true;
      var touched;
      ok, touched := ApplyOps();
      if !ok {
        return;
      }
      staged := map[];
      if autoCommit && touched != [] {
        var _ := repo.StagePaths(touched);
      }
      assert touched == [] ==> repo.index == SyncAll(repo.index, repo.tree, touched) by {
        SyncNone(repo.index, repo.tree);
      }
    }
  }

  lemma CommitPromises(t: Tree, index: map<Path, string>, staged: map<Path, string>, ops: seq<Op>, root: Path)
    requires forall op :: op in ops && op.Write? ==> op.rel in staged
    ensures
      var run := RunOps(t, staged, ops, root);
      && (run.ok ==> CommitDone(t.files, staged, ops, root, run.tree.files))
      && IndexFollows(ops, root, SyncAll(index, run.tree, AllTouched(ops, root)), run.tree.files)
    ensures HaveRoom(t, root, ops) ==> RunOps(t, staged, ops, root).ok
  {
    hide RunOps, CommitDone, IndexFollows, RoomFor;
    var run := RunOps(t, staged, ops, root);
    if run.ok {
      RunDoesAll(t, staged, ops, root);
    }
    IndexDoesFollow(index, run.tree, ops, root);
    if HaveRoom(t, root, ops) {
      SeparateWritesLand(t, staged, ops, root);
    }
  }

  lemma RunNothing(t: Tree, staged: map<Path, string>, root: Path)
    ensures RunOps(t, staged, [], root) == Outcome(true, t, staged) && AllTouched([], root) == []
  {
  }

  lemma RunOneMore(t: Tree, staged: map<Path, string>, ops: seq<Op>, i: nat, root: Path)
    requires i < |ops|
    ensures
      var before := RunOps(t, staged, ops[..i], root);
      RunOps(t, staged, ops[..i + 1], root) ==
        if before.ok then Apply(before.tree, before.staged, ops[i], root) else before
    ensures AllTouched(ops[..i + 1], root) == AllTouched(ops[..i], root) + Touched(ops[i], root)
  {
    assert ops[..i + 1][..i] == ops[..i];
  }

  lemma SyncNone(index: map<Path, string>, t: Tree)
    ensures SyncAll(index, t, []) == index
  {
  }

  lemma {:induction false} FirstFailureStops(t: Tree, staged: map<Path, string>, ops: seq<Op>, n: nat, root: Path)
    requires n <= |ops| && !RunOps(t, staged, ops[..n], root).ok
    ensures RunOps(t, staged, ops, root) == RunOps(t, staged, ops[..n], root)
    decreases |ops|
  {
    if n == |ops| {
      assert ops[..n] == ops;
    } else {
      var m := |ops| - 1;
      assert ops[..m][..n] == ops[..n];
      FirstFailureStops(t, staged, ops[..m], n, root);
    }
  }
}
