/** When a session's file is in one directory only: a heartbeat is written without the lock, so what it
    rewrites may have been archived since it was read. */
module AgentHomes {
  import opened Common
  import opened AgentRegistry

  /** No session is in agents/ and in agents-archive/ at once. */
  ghost predicate OneHome(f: Files) {
    forall id :: id in f.live ==> id !in f.archived
  }

  lemma ArchiveOneMoves(f: Files, rec: Rec)
    requires OneHome(f)
    ensures OneHome(ArchiveOne(f, rec))
  {
  }

  lemma {:induction false} ArchiveBatchMoves(f: Files, batch: seq<Rec>)
    requires OneHome(f)
    ensures OneHome(ArchiveBatch(f, batch))
  {
    hide ArchiveOne, OneHome;
    if batch != [] {
      var n := |batch| - 1;
      ArchiveBatchMoves(f, batch[..n]);
      ArchiveOneMoves(ArchiveBatch(f, batch[..n]), batch[n]);
    }
  }

  /** A session gets a second home in one way only: a heartbeat writes what is archived by then. */
  lemma StepKeepsOneHomeIff(st: State, m: Move)
    requires Inv(st) && Enabled(st, m) && OneHome(st.files)
    ensures OneHome(Next(st, m).files) <==> !(m.WriteBeat? && st.beats[m.beat].id in st.files.archived)
  {
    hide Inv, FilesOk, ArchiveBatch, IndexBatch, Lookup, ReadNext, NextBatch;
    match m
    case ArchiveMove(k) => ArchiveBatchMoves(st.files, NextBatch(st.sweeps[k]));
    case IndexMove(k) => IndexBatchKeeps(st.files, st.sweeps[k].toIndex, st.now);
    case _ =>
  }

  /** A move that starts sweeps with at least the grace, and writes heartbeats at most late after expiry. */
  ghost predicate Punctual(st: State, m: Move, grace: nat, late: int)
    requires Enabled(st, m)
  {
    && (m.StartSweep? ==> m.grace >= grace)
    && (m.WriteBeat? ==> st.now <= st.beats[m.beat].expires + late)
  }

  /** What archiving after the grace alone maintains. */
  ghost predicate Graced(st: State, grace: nat) {
    && OneHome(st.files) && ArchiveExpiredOnly(st.files, st.now - grace)
    && forall k :: k in st.sweeps ==> st.sweeps[k].grace >= grace
  }

  lemma BatchIsLongDue(f: Files, now: int, s: Sweep, grace: nat)
    requires SweepOk(f, now, s) && s.grace >= grace
    ensures forall rec :: rec in NextBatch(s) ==> StillTrue(f, rec) && rec.expires < now - grace
  {
    hide StillTrue;
  }

  lemma StepKeepsGraced(st: State, m: Move, grace: nat, late: int)
    requires Inv(st) && Graced(st, grace) && Enabled(st, m) && Punctual(st, m, grace, late) && late <= grace
    ensures Graced(Next(st, m), grace)
  {
    hide FilesOk, Indexed, SweepOk, ArchiveBatch, IndexBatch, Lookup, ReadNext, NextBatch, OneHome;
    StepKeepsOneHomeIff(st, m);
    match m
    case ArchiveMove(k) =>
      BatchIsLongDue(st.files, st.now, st.sweeps[k], grace);
      ArchiveBatchKeeps(st.files, NextBatch(st.sweeps[k]), st.now - grace);
    case IndexMove(k) => IndexBatchKeeps(st.files, st.sweeps[k].toIndex, st.now);
    case ReadMove(k) => ReadKeepsGrace(st.files, st.sweeps[k]);
    case _ =>
  }

  lemma ReadKeepsGrace(f: Files, s: Sweep)
    requires s.unread != []
    ensures ReadNext(f, s).grace == s.grace
  {
  }

  const NO_FILES := Files(map[], map[], map[])

  ghost predicate IsPunctualRun(states: seq<State>, moves: seq<Move>, grace: nat, late: int) {
    && IsRun(states, moves) && states[0] == State(NO_FILES, 0, map[], map[])
    && forall i :: 0 <= i < |moves| ==> Enabled(states[i], moves[i]) && Punctual(states[i], moves[i], grace, late)
  }

  /** Enough grace for the latest heartbeat keeps every session in one place. */
  lemma {:induction false} PunctualRunKeepsOneHome(states: seq<State>, moves: seq<Move>, grace: nat, late: int, i: nat)
    requires IsPunctualRun(states, moves, grace, late) && late <= grace && i < |states|
    ensures Inv(states[i]) && Graced(states[i], grace)
  {
    hide Next, Enabled, Punctual, FilesOk, Indexed;
    if i == 0 {
      EmptyRegistry(grace);
    } else {
      PunctualRunKeepsOneHome(states, moves, grace, late, i - 1);
      hide Inv, Graced;
      assert Punctual(states[i - 1], moves[i - 1], grace, late) && states[i] == Next(states[i - 1], moves[i - 1]);
      StepKeepsGraced(states[i - 1], moves[i - 1], grace, late);
      StepKeepsInv(states[i - 1], moves[i - 1]);
    }
  }

  lemma EmptyRegistry(grace: nat)
    ensures var st := State(NO_FILES, 0, map[], map[]); Inv(st) && Graced(st, grace)
  {
  }

  // ----- A stalled heartbeat -----

  const STALLED := Rec("a", "k", 1, 0)

  /** A heartbeat reads, the clock runs past expiry and grace, a sweep archives the file, the heartbeat writes. */
  function StalledBeat(grace: nat): (moves: seq<Move>)
    ensures |moves| == 7
  {
    [RegisterMove(STALLED), ReadBeat(0, "a"), Tick(2 + grace), StartSweep(0, grace, ["a"]), ReadMove(0), ArchiveMove(0),
     WriteBeat(0, 2 + grace)]
  }

  function StalledFiles(grace: nat): (f: seq<Files>)
    ensures |f| == 3
  {
    [Files(map["a" := STALLED], map[], map["k" := "a"]), Files(map[], map["a" := STALLED], map[]),
     Files(map["a" := STALLED.(lastSeen := 2 + grace)], map["a" := STALLED], map[])]
  }

  function StalledStates(grace: nat): (states: seq<State>)
    ensures |states| == 8
  {
    var f, now := StalledFiles(grace), 2 + grace;
    [State(NO_FILES, 0, map[], map[]), State(f[0], 0, map[], map[]), State(f[0], 0, map[], map[0 := STALLED]),
     State(f[0], now, map[], map[0 := STALLED]),
     State(f[0], now, map[0 := Sweep(now, grace, ["a"], [], [])], map[0 := STALLED]),
     State(f[0], now, map[0 := Sweep(now, grace, [], [STALLED], [])], map[0 := STALLED]),
     State(f[1], now, map[0 := Sweep(now, grace, [], [], [])], map[0 := STALLED]),
     State(f[2], now, map[0 := Sweep(now, grace, [], [], [])], map[])]
  }

  lemma SweepTakes(grace: nat)
    ensures
      var f, now := StalledFiles(grace), 2 + grace;
      && ReadNext(f[0], Sweep(now, grace, ["a"], [], [])) == Sweep(now, grace, [], [STALLED], [])
      && NextBatch(Sweep(now, grace, [], [STALLED], [])) == [STALLED]
      && ArchiveBatch(f[0], [STALLED]) == f[1]
      && Rewrite(f[1], STALLED.(lastSeen := now)) == f[2]
  {
    var f := StalledFiles(grace);
    assert [STALLED][..0] == [] && ArchiveBatch(f[0], []) == f[0];
    assert ArchiveBatch(f[0], [STALLED]) == ArchiveOne(f[0], STALLED);
  }

  lemma FirstFile(grace: nat)
    ensures var f := StalledFiles(grace)[0];
      && Register(NO_FILES, STALLED, 0) == Ok(f) && f.live == map["a" := STALLED]
    ensures !OneHome(StalledFiles(grace)[2])
  {
    assert "a" in StalledFiles(grace)[2].live;
  }

  lemma StalledStep(grace: nat, i: nat)
    requires i < 7
    ensures Enabled(StalledStates(grace)[i], StalledBeat(grace)[i])
    ensures StalledStates(grace)[i + 1] == Next(StalledStates(grace)[i], StalledBeat(grace)[i])
    ensures Punctual(StalledStates(grace)[i], StalledBeat(grace)[i], grace, grace + 1)
  {
    hide ReadNext, NextBatch, ArchiveBatch, Rewrite, StalledFiles;
    SweepTakes(grace);
    FirstFile(grace);
    assert [STALLED][1..] == [];
  }

  lemma StalledEnds(grace: nat)
    ensures StalledStates(grace)[0] == State(NO_FILES, 0, map[], map[])
    ensures StalledStates(grace)[7].files == StalledFiles(grace)[2]
  {
  }

  /** Whatever the grace, a heartbeat one unit later than that brings an archived file back: the run ends
      with one session in both directories. */
  lemma HeartbeatMayResurrect(grace: nat, late: int)
    requires late > grace
    ensures IsPunctualRun(StalledStates(grace), StalledBeat(grace), grace, late)
    ensures !OneHome(StalledStates(grace)[7].files)
  {
    hide Enabled, Next, StalledStates, StalledFiles, StalledBeat, OneHome;
    var states, moves := StalledStates(grace), StalledBeat(grace);
    forall i | 0 <= i < |moves|
      ensures Enabled(states[i], moves[i]) && states[i + 1] == Next(states[i], moves[i])
      ensures Punctual(states[i], moves[i], grace, late)
    {
      StalledStep(grace, i);
    }
    FirstFile(grace);
    StalledEnds(grace);
  }

  /** Heartbeats written by expiry plus late leave every session in one directory, in all runs whose sweeps
      wait at least the grace, exactly when late is within the grace. */
  lemma OneHomeIff(grace: nat, late: int)
    ensures late <= grace <==>
      forall states: seq<State>, moves, i: nat :: IsPunctualRun(states, moves, grace, late) && i < |states| ==>
        OneHome(states[i].files)
  {
    hide IsPunctualRun, OneHome, StalledStates, StalledBeat;
    if late <= grace {
      forall states: seq<State>, moves, i: nat | IsPunctualRun(states, moves, grace, late) && i < |states|
        ensures OneHome(states[i].files)
      {
        PunctualRunKeepsOneHome(states, moves, grace, late, i);
      }
    } else {
      HeartbeatMayResurrect(grace, late);
    }
  }
}
