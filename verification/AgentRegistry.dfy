/** The central agent registry: one file per session, a key index that replaces a walk over every
    session, and sweepers that move long-expired sessions to an archive in locked batches chosen from
    unlocked reads. Lock bodies are atomic steps; everything else interleaves. */
module AgentRegistry {
  import opened Common

  type Key = string

  datatype Rec = Rec(id: Id, key: Key, expires: int, lastSeen: int)

  /** agents/, agents-archive/ and agent-keys/. */
  datatype Files = Files(live: map<Id, Rec>, archived: map<Id, Rec>, index: map<Key, Id>)

  const ARCHIVE_BATCH_SIZE := 256

  // ----- Lock bodies -----

  /** activeHolder: one index read and one record read. */
  function ActiveHolder(f: Files, key: Key, now: int): Option<Rec> {
    if key !in f.index || f.index[key] !in f.live then None
    else
      var rec := f.live[f.index[key]];
      if rec.key != key || rec.expires <= now then None else Some(rec)
  }

  function Register(f: Files, rec: Rec, now: int): Result<Files> {
    if rec.id == "" || rec.key == "" then Err(InvalidArgument)
    else
      var holder := ActiveHolder(f, rec.key, now);
      if holder.Some? && holder.value.id != rec.id then Err(AlreadyExists)
      else Ok(f.(live := f.live[rec.id := rec], index := f.index[rec.key := rec.id]))
  }

  /** archiveOne: move the file if it is still there, and drop its index entry if still the named holder. */
  function ArchiveOne(f: Files, rec: Rec): Files {
    if rec.id !in f.live then f
    else
      Files(f.live - {rec.id}, f.archived[rec.id := f.live[rec.id]],
            if rec.key != "" && rec.key in f.index && f.index[rec.key] == rec.id then f.index - {rec.key} else f.index)
  }

  function ArchiveBatch(f: Files, batch: seq<Rec>): Files {
    if batch == [] then f else ArchiveOne(ArchiveBatch(f, batch[..|batch| - 1]), batch[|batch| - 1])
  }

  /** Backfill: name the record for its key unless some entry is there. */
  function IndexOne(f: Files, rec: Rec): Files {
    if rec.key in f.index then f else f.(index := f.index[rec.key := rec.id])
  }

  function IndexBatch(f: Files, recs: seq<Rec>): Files {
    if recs == [] then f else IndexOne(IndexBatch(f, recs[..|recs| - 1]), recs[|recs| - 1])
  }

  /** WriteAgentRecord: one file, written whole and without the lock; it may be one archived since. */
  function Rewrite(f: Files, rec: Rec): Files {
    f.(live := f.live[rec.id := rec])
  }

  // ----- Sweepers and the interleaving -----

  /** One ArchiveExpired pass in progress: its clock reading, the names still to read, and what its
      unlocked reads have chosen so far. */
  datatype Sweep = Sweep(at: int, grace: int, unread: seq<Id>, toArchive: seq<Rec>, toIndex: seq<Rec>)

  /** beats holds the records that heartbeats and touches have read and not yet written back. */
  datatype State = State(files: Files, now: int, sweeps: map<nat, Sweep>, beats: map<nat, Rec>)

  function MinInt(a: int, b: int): int {
    if a < b then a else b
  }

  function Classify(s: Sweep, rec: Rec): Sweep {
    if rec.expires + s.grace < s.at then s.(toArchive := s.toArchive + [rec])
    else if rec.expires > s.at && rec.key != "" then s.(toIndex := s.toIndex + [rec])
    else s
  }

  /** One unlocked read of the next listed name; a file already moved is skipped. */
  function ReadNext(f: Files, s: Sweep): Sweep
    requires s.unread != []
  {
    var rest := s.(unread := s.unread[1..]);
    if s.unread[0] in f.live then Classify(rest, f.live[s.unread[0]]) else rest
  }

  datatype Move =
    | Tick(now: int)
    | RegisterMove(rec: Rec)
    | ReadBeat(beat: nat, id: Id)
    | WriteBeat(beat: nat, seen: int)
    | StartSweep(sweep: nat, grace: int, names: seq<Id>)
    | ReadMove(sweep: nat)
    | ArchiveMove(sweep: nat)
    | IndexMove(sweep: nat)
    | StopSweep(sweep: nat)

  function NextBatch(s: Sweep): seq<Rec> {
    s.toArchive[..MinInt(ARCHIVE_BATCH_SIZE, |s.toArchive|)]
  }

  /** ReadAgent with the directories still: live first, then archived. */
  function Lookup(f: Files, id: Id): Option<Rec> {
    if id in f.live then Some(f.live[id]) else if id in f.archived then Some(f.archived[id]) else None
  }

  /** The clock only advances, an id is registered at most once, a heartbeat writes back what it has
      read however much later and without a lock, and a sweep archives after reading and indexes after
      archiving. */
  ghost predicate Enabled(st: State, m: Move) {
    match m
    case Tick(now) => now >= st.now
    case RegisterMove(rec) => rec.id !in st.files.live && rec.id !in st.files.archived
    case ReadBeat(k, id) => k !in st.beats && Lookup(st.files, id).Some?
    case WriteBeat(k, seen) => k in st.beats
    case StartSweep(k, grace, names) =>
      k !in st.sweeps && grace >= 0 && forall id :: id in names <==> id in st.files.live
    case ReadMove(k) => k in st.sweeps && st.sweeps[k].unread != []
    case ArchiveMove(k) => k in st.sweeps && st.sweeps[k].unread == [] && st.sweeps[k].toArchive != []
    case IndexMove(k) => k in st.sweeps && st.sweeps[k].unread == [] && st.sweeps[k].toArchive == []
    case StopSweep(k) => k in st.sweeps
  }

  function Next(st: State, m: Move): State
    requires Enabled(st, m)
  {
    match m
    case Tick(now) => st.(now := now)
    case RegisterMove(rec) =>
      (match Register(st.files, rec, st.now) case Ok(f) => st.(files := f) case Err(_) => st)
    case ReadBeat(k, id) => st.(beats := st.beats[k := Lookup(st.files, id).value])
    case WriteBeat(k, seen) =>
      st.(files := Rewrite(st.files, st.beats[k].(lastSeen := seen)), beats := st.beats - {k})
    case StartSweep(k, grace, names) => st.(sweeps := st.sweeps[k := Sweep(st.now, grace, names, [], [])])
    case ReadMove(k) => st.(sweeps := st.sweeps[k := ReadNext(st.files, st.sweeps[k])])
    case ArchiveMove(k) =>
      var s := st.sweeps[k];
      st.(files := ArchiveBatch(st.files, NextBatch(s)),
          sweeps := st.sweeps[k := s.(toArchive := s.toArchive[|NextBatch(s)|..])])
    case IndexMove(k) =>
      st.(files := IndexBatch(st.files, st.sweeps[k].toIndex), sweeps := st.sweeps - {k})
    case StopSweep(k) => st.(sweeps := st.sweeps - {k})
  }

  // ----- The invariant -----

  /** r is what a walk over every live record would report as the holder of key. */
  ghost predicate IsHolder(f: Files, key: Key, now: int, r: Rec) {
    r.id in f.live && f.live[r.id] == r && r.key == key && r.expires > now
  }

  /** Every unexpired live record with a key is the one the index names for that key. */
  ghost predicate Indexed(f: Files, now: int) {
    forall id :: id in f.live && f.live[id].key != "" && f.live[id].expires > now ==>
      f.live[id].key in f.index && f.index[f.live[id].key] == id
  }

  ghost predicate SameSession(a: Rec, b: Rec) {
    a.id == b.id && a.key == b.key && a.expires == b.expires
  }

  /** Files are named after their ids, and two files of one id agree on key and expiry. */
  ghost predicate FilesOk(f: Files) {
    && (forall id :: id in f.live ==> f.live[id].id == id)
    && (forall id :: id in f.archived ==> f.archived[id].id == id)
    && (forall id :: id in f.live && id in f.archived ==> SameSession(f.live[id], f.archived[id]))
  }

  /** What was once read of a record still holds of every file it has; it has at least one. */
  ghost predicate StillTrue(f: Files, rec: Rec) {
    && (rec.id in f.live || rec.id in f.archived)
    && (rec.id in f.live ==> SameSession(f.live[rec.id], rec))
    && (rec.id in f.archived ==> SameSession(f.archived[rec.id], rec))
  }

  /** Only expired sessions are archived. */
  ghost predicate ArchiveExpiredOnly(f: Files, now: int) {
    forall id :: id in f.archived ==> f.archived[id].expires < now
  }

  ghost predicate SweepOk(f: Files, now: int, s: Sweep) {
    && s.at <= now && s.grace >= 0
    && (forall rec :: rec in s.toArchive ==> StillTrue(f, rec) && rec.expires + s.grace < s.at)
    && (forall rec :: rec in s.toIndex ==> StillTrue(f, rec) && rec.key != "")
  }

  ghost predicate BeatsOk(f: Files, beats: map<nat, Rec>) {
    forall k :: k in beats ==> StillTrue(f, beats[k])
  }

  ghost predicate SweepsOk(f: Files, now: int, sweeps: map<nat, Sweep>) {
    forall k :: k in sweeps ==> SweepOk(f, now, sweeps[k])
  }

  ghost predicate Inv(st: State) {
    && FilesOk(st.files) && Indexed(st.files, st.now) && ArchiveExpiredOnly(st.files, st.now)
    && SweepsOk(st.files, st.now, st.sweeps) && BeatsOk(st.files, st.beats)
  }

  // ----- The index refines the walk -----

  /** One index read answers exactly what a walk over all live records would. */
  lemma ActiveHolderIsTheHolder(f: Files, key: Key, now: int)
    requires FilesOk(f) && Indexed(f, now) && key != ""
    ensures forall r :: IsHolder(f, key, now, r) <==> ActiveHolder(f, key, now) == Some(r)
  {
  }

  lemma AtMostOneHolder(f: Files, key: Key, now: int, r: Rec, s: Rec)
    requires FilesOk(f) && Indexed(f, now) && key != "" && IsHolder(f, key, now, r) && IsHolder(f, key, now, s)
    ensures r == s
  {
    ActiveHolderIsTheHolder(f, key, now);
  }

  // ----- Each step keeps it -----

  ghost predicate NothingLost(f: Files, g: Files) {
    && (forall id :: id in f.archived ==> id in g.archived)
    && (forall id :: id in f.live ==> id in g.live || id in g.archived)
  }

  /** Every file of an id, before and after, has the same key and expiry. */
  ghost predicate Agree(before: map<Id, Rec>, after: map<Id, Rec>) {
    forall id :: id in before && id in after ==> SameSession(after[id], before[id])
  }

  /** From f to g no id is lost, no archived file goes away, and no file of an id changes key or expiry. */
  ghost predicate Progress(f: Files, g: Files) {
    && NothingLost(f, g)
    && Agree(f.archived, g.archived) && Agree(f.live, g.live) && Agree(f.live, g.archived) && Agree(f.archived, g.live)
  }

  lemma AgreeThrough(x: map<Id, Rec>, y: map<Id, Rec>, z: map<Id, Rec>, y': map<Id, Rec>)
    requires Agree(x, y) && Agree(y, z) && Agree(x, y') && Agree(y', z)
    requires forall id :: id in x ==> id in y || id in y'
    ensures Agree(x, z)
  {
  }

  lemma ProgressChains(f: Files, g: Files, h: Files)
    requires Progress(f, g) && Progress(g, h) && FilesOk(f) && FilesOk(g) && FilesOk(h)
    ensures Progress(f, h)
  {
    hide Agree, FilesOk;
    AgreeThrough(f.archived, g.archived, h.archived, g.live);
    AgreeThrough(f.archived, g.archived, h.live, g.live);
    AgreeThrough(f.live, g.live, h.live, g.archived);
    AgreeThrough(f.live, g.live, h.archived, g.archived);
  }

  /** Whatever was true of a session stays true. */
  lemma ProgressKeeps(f: Files, g: Files, rec: Rec)
    requires Progress(f, g) && StillTrue(f, rec)
    ensures StillTrue(g, rec)
  {
  }

  lemma ArchiveOneKeeps(f: Files, rec: Rec, now: int)
    requires FilesOk(f) && StillTrue(f, rec)
    ensures FilesOk(ArchiveOne(f, rec)) && Progress(f, ArchiveOne(f, rec))
    ensures Indexed(f, now) ==> Indexed(ArchiveOne(f, rec), now)
    ensures rec.expires < now && ArchiveExpiredOnly(f, now) ==> ArchiveExpiredOnly(ArchiveOne(f, rec), now)
  {
  }

  lemma {:induction false} ArchiveBatchKeeps(f: Files, batch: seq<Rec>, now: int)
    requires FilesOk(f) && forall rec :: rec in batch ==> StillTrue(f, rec)
    ensures FilesOk(ArchiveBatch(f, batch)) && Progress(f, ArchiveBatch(f, batch))
    ensures Indexed(f, now) ==> Indexed(ArchiveBatch(f, batch), now)
    ensures (forall rec :: rec in batch ==> rec.expires < now) && ArchiveExpiredOnly(f, now) ==>
              ArchiveExpiredOnly(ArchiveBatch(f, batch), now)
  {
    hide FilesOk, Progress, Indexed, ArchiveExpiredOnly, StillTrue, ArchiveOne;
    if batch == [] {
      NoProgress(f);
    } else {
      var n := |batch| - 1;
      assert batch[n] in batch;
      ArchiveBatchKeeps(f, batch[..n], now);
      ProgressKeeps(f, ArchiveBatch(f, batch[..n]), batch[n]);
      ArchiveOneKeeps(ArchiveBatch(f, batch[..n]), batch[n], now);
      ProgressChains(f, ArchiveBatch(f, batch[..n]), ArchiveBatch(f, batch));
    }
  }

  lemma NoProgress(f: Files)
    requires FilesOk(f)
    ensures Progress(f, f)
  {
  }

  /** A backfill only fills a gap, and where the invariant holds a gap means nobody holds the key. */
  lemma {:induction false} IndexBatchKeeps(f: Files, recs: seq<Rec>, now: int)
    ensures IndexBatch(f, recs).live == f.live && IndexBatch(f, recs).archived == f.archived
    ensures forall k :: k in f.index ==> k in IndexBatch(f, recs).index && IndexBatch(f, recs).index[k] == f.index[k]
    ensures Indexed(f, now) ==> Indexed(IndexBatch(f, recs), now)
  {
    if recs != [] {
      IndexBatchKeeps(f, recs[..|recs| - 1], now);
    }
  }

  lemma RegisterKeeps(f: Files, rec: Rec, now: int)
    requires FilesOk(f) && Indexed(f, now) && ArchiveExpiredOnly(f, now)
    requires rec.id !in f.live && rec.id !in f.archived && Register(f, rec, now).Ok?
    ensures var g := Register(f, rec, now).value;
            FilesOk(g) && Progress(f, g) && Indexed(g, now) && ArchiveExpiredOnly(g, now)
  {
    ActiveHolderIsTheHolder(f, rec.key, now);
    var g := Register(f, rec, now).value;
    forall id | id in g.live && g.live[id].key == rec.key && g.live[id].expires > now
      ensures id == rec.id
    {
      assert id != rec.id ==> IsHolder(f, rec.key, now, f.live[id]);
    }
  }

  /** A stalled rewrite cannot bring a session back to life: what it read is unexpired only while its
      file is still the live one. */
  lemma RewriteKeeps(f: Files, rec: Rec, seen: int, now: int)
    requires FilesOk(f) && Indexed(f, now) && ArchiveExpiredOnly(f, now) && StillTrue(f, rec)
    ensures var g := Rewrite(f, rec.(lastSeen := seen));
            FilesOk(g) && Progress(f, g) && Indexed(g, now) && ArchiveExpiredOnly(g, now)
  {
  }

  lemma ReadKeeps(f: Files, now: int, s: Sweep)
    requires FilesOk(f) && SweepOk(f, now, s) && s.unread != []
    ensures SweepOk(f, now, ReadNext(f, s))
  {
  }

  lemma LookupIsTrue(f: Files, id: Id)
    requires FilesOk(f) && Lookup(f, id).Some?
    ensures StillTrue(f, Lookup(f, id).value)
  {
  }

  /** Sweeps and heartbeats under way survive any progress. */
  lemma OthersKeep(f: Files, g: Files, now: int, sweeps: map<nat, Sweep>, beats: map<nat, Rec>)
    requires Progress(f, g) && SweepsOk(f, now, sweeps) && BeatsOk(f, beats)
    ensures SweepsOk(g, now, sweeps) && BeatsOk(g, beats)
  {
    hide Progress, StillTrue;
    forall rec | StillTrue(f, rec) ensures StillTrue(g, rec) {
      ProgressKeeps(f, g, rec);
    }
  }

  lemma BatchIsDue(f: Files, now: int, s: Sweep)
    requires SweepOk(f, now, s)
    ensures forall rec :: rec in NextBatch(s) ==> StillTrue(f, rec) && rec.expires < now
    ensures forall n :: 0 <= n <= |s.toArchive| ==> SweepOk(f, now, s.(toArchive := s.toArchive[n..]))
  {
    hide StillTrue;
  }

  /** Every step of every interleaving of registrations, heartbeats, clock ticks and sweeps. */
  lemma StepKeepsInv(st: State, m: Move)
    requires Inv(st) && Enabled(st, m)
    ensures Inv(Next(st, m)) && Progress(st.files, Next(st, m).files)
  {
    hide FilesOk, Indexed, ArchiveExpiredOnly, SweepOk, Progress, StillTrue, ArchiveBatch, IndexBatch, Register,
      ReadNext, NextBatch, Rewrite, Lookup;
    var f, next := st.files, Next(st, m);
    NoProgress(f);
    match m
    case Tick(now) => TickKeeps(st, now);
    case RegisterMove(rec) =>
      if Register(f, rec, st.now).Ok? {
        RegisterKeeps(f, rec, st.now);
        OthersKeep(f, next.files, st.now, st.sweeps, st.beats);
      }
    case ReadBeat(k, id) => LookupIsTrue(f, id);
    case WriteBeat(k, seen) =>
      RewriteKeeps(f, st.beats[k], seen, st.now);
      OthersKeep(f, next.files, st.now, st.sweeps, st.beats);
    case StartSweep(k, grace, names) => FreshSweep(f, st.now, grace, names);
    case ReadMove(k) => ReadKeeps(f, st.now, st.sweeps[k]);
    case ArchiveMove(k) =>
      BatchIsDue(f, st.now, st.sweeps[k]);
      BatchFits(st.sweeps[k]);
      ArchiveBatchKeeps(f, NextBatch(st.sweeps[k]), st.now);
      OthersKeep(f, next.files, st.now, next.sweeps, st.beats);
    case IndexMove(k) =>
      IndexBatchKeeps(f, st.sweeps[k].toIndex, st.now);
      OnlyIndexChanged(f, next.files, st.now);
      OthersKeep(f, next.files, st.now, next.sweeps, st.beats);
    case StopSweep(k) =>
  }

  lemma BatchFits(s: Sweep)
    ensures |NextBatch(s)| <= |s.toArchive|
  {
  }

  lemma FreshSweep(f: Files, now: int, grace: int, names: seq<Id>)
    requires grace >= 0
    ensures SweepOk(f, now, Sweep(now, grace, names, [], []))
  {
  }

  lemma TickKeeps(st: State, now: int)
    requires Inv(st) && now >= st.now
    ensures Inv(st.(now := now))
  {
    hide FilesOk, StillTrue;
  }

  lemma OnlyIndexChanged(f: Files, g: Files, now: int)
    requires FilesOk(f) && g.live == f.live && g.archived == f.archived
    ensures FilesOk(g) && Progress(f, g) && (ArchiveExpiredOnly(f, now) ==> ArchiveExpiredOnly(g, now))
  {
  }

  // ----- Runs -----

  ghost predicate IsRun(states: seq<State>, moves: seq<Move>) {
    && |states| == |moves| + 1
    && forall i :: 0 <= i < |moves| ==> Enabled(states[i], moves[i]) && states[i + 1] == Next(states[i], moves[i])
  }

  lemma {:induction false} RunKeepsInv(states: seq<State>, moves: seq<Move>, i: nat, j: nat)
    requires IsRun(states, moves) && Inv(states[0]) && i <= j < |states|
    ensures Inv(states[i]) && Inv(states[j]) && Progress(states[i].files, states[j].files)
    decreases j
  {
    hide Indexed, SweepOk, Next, Enabled;
    if i < j {
      RunKeepsInv(states, moves, i, j - 1);
      OneStep(states, moves, j - 1);
      ProgressChains(states[i].files, states[j - 1].files, states[j].files);
    } else if i > 0 {
      RunKeepsInv(states, moves, i - 1, i - 1);
      OneStep(states, moves, i - 1);
    }
  }

  lemma OneStep(states: seq<State>, moves: seq<Move>, i: nat)
    requires IsRun(states, moves) && i < |moves| && Inv(states[i])
    ensures Inv(states[i + 1]) && Progress(states[i].files, states[i + 1].files)
  {
    StepKeepsInv(states[i], moves[i]);
  }

  /** In every state of every run: at most one unexpired session per key, and the index finds it. */
  lemma IndexAlwaysRefinesWalk(states: seq<State>, moves: seq<Move>, i: nat, key: Key)
    requires IsRun(states, moves) && Inv(states[0]) && i < |states| && key != ""
    ensures forall r :: IsHolder(states[i].files, key, states[i].now, r) <==>
                        ActiveHolder(states[i].files, key, states[i].now) == Some(r)
  {
    RunKeepsInv(states, moves, i, i);
    ActiveHolderIsTheHolder(states[i].files, key, states[i].now);
  }

  ghost predicate Registered(f: Files, id: Id) {
    id in f.live || id in f.archived
  }

  /** ReadAgent reads agents/ at one moment and, on a miss, agents-archive/ at a later one: whatever moves
      happen in between, an id registered before it began is found. */
  lemma ReadAgentFinds(states: seq<State>, moves: seq<Move>, began: nat, readLive: nat, readArchive: nat, id: Id)
    requires IsRun(states, moves) && Inv(states[0]) && began <= readLive <= readArchive < |states|
    requires Registered(states[began].files, id)
    ensures id in states[readLive].files.live || id in states[readArchive].files.archived
  {
    RunKeepsInv(states, moves, began, readLive);
    RunKeepsInv(states, moves, readLive, readArchive);
  }

  /** The ids WalkAllAgents calls its function on: a live name listed at one moment counts if its file is
      still there when it is read, then the archive is listed and read at still later moments. */
  ghost predicate Visited(states: seq<State>, listLive: nat, readAt: map<Id, nat>, listArchive: nat, readArchive: nat,
                          id: Id)
    requires listLive < |states| && listArchive < |states| && readArchive < |states|
    requires forall x :: x in readAt ==> readAt[x] < |states|
  {
    || (id in states[listLive].files.live && id in readAt && id in states[readAt[id]].files.live)
    || (id in states[listArchive].files.archived && id in states[readArchive].files.archived)
  }

  /** No id registered before the walk began is missed. */
  lemma WalkMissesNothing(states: seq<State>, moves: seq<Move>, began: nat, listLive: nat, readAt: map<Id, nat>,
                          listArchive: nat, readArchive: nat, id: Id)
    requires IsRun(states, moves) && Inv(states[0]) && began <= listLive <= listArchive <= readArchive < |states|
    requires readAt.Keys == states[listLive].files.live.Keys
    requires forall x :: x in readAt ==> listLive <= readAt[x] <= listArchive
    requires Registered(states[began].files, id)
    ensures Visited(states, listLive, readAt, listArchive, readArchive, id)
  {
    hide Inv, IsRun;
    RunKeepsInv(states, moves, began, listLive);
    RunKeepsInv(states, moves, listArchive, readArchive);
    if id in states[listLive].files.live {
      RunKeepsInv(states, moves, listLive, readAt[id]);
      RunKeepsInv(states, moves, readAt[id], listArchive);
    } else {
      RunKeepsInv(states, moves, listLive, listArchive);
    }
  }

  // ----- Registering -----

  /** A session is registered unless its id or key is empty or another unexpired session holds the key;
      it then has its file and the key, and every other session keeps its file. */
  lemma RegisterMeans(f: Files, rec: Rec, now: int)
    requires FilesOk(f) && Indexed(f, now)
    ensures
      var r := Register(f, rec, now);
      if rec.id == "" || rec.key == "" then r == Err(InvalidArgument)
      else if exists h :: IsHolder(f, rec.key, now, h) && h.id != rec.id then r == Err(AlreadyExists)
      else
        && r.Ok? && r.value.archived == f.archived
        && r.value.live.Keys == f.live.Keys + {rec.id} && r.value.live[rec.id] == rec
        && (forall id :: id in f.live && id != rec.id ==> r.value.live[id] == f.live[id])
        && (rec.expires > now ==> ActiveHolder(r.value, rec.key, now) == Some(rec))
  {
    if rec.key != "" {
      ActiveHolderIsTheHolder(f, rec.key, now);
      forall h | IsHolder(f, rec.key, now, h) ensures ActiveHolder(f, rec.key, now) == Some(h) {
      }
      var holder := ActiveHolder(f, rec.key, now);
      assert holder.Some? ==> IsHolder(f, rec.key, now, holder.value);
    }
  }

  /** An archived session leaves its file in the archive alone, and no index entry that names it for its key. */
  lemma ArchiveOneMeans(f: Files, rec: Rec)
    requires rec.id in f.live && f.live[rec.id] == rec
    ensures
      var g := ArchiveOne(f, rec);
      && g.live == f.live - {rec.id} && g.archived == f.archived[rec.id := rec]
      && (rec.key != "" && rec.key in g.index ==> g.index[rec.key] != rec.id)
      && (forall k :: k in f.index && k != rec.key ==> k in g.index && g.index[k] == f.index[k])
  {
  }
}
