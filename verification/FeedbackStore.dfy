/** Feedback aggregates on one file shared by several processes: each mutation reloads, edits and
    rewrites the whole file under the project lock. */
module FeedbackStore {
  import opened Common

  type Key = string

  datatype Rating = Like | Dislike | OtherRating

  datatype Record = Record(
    likes: nat, dislikes: nat, retrievals: nat, reasons: seq<string>,
    lastFeedbackAt: Option<nat>, lastUsedAt: Option<nat>)

  type Entries = map<Key, Record>

  const EMPTY_RECORD := Record(0, 0, 0, [], None, None)
  const REASON_LIMIT: nat := 10
  const REASON_CHARS: nat := 500

  /** One committed change of the file, with the time it read. */
  datatype Mutation =
    | Rate(key: Key, like: bool, reason: string, at: nat)
    | Retrieve(keys: seq<Key>, at: nat)
    | Drop(keys: seq<Key>)

  function Find(m: Entries, key: Key): Record {
    if key in m then m[key] else EMPTY_RECORD
  }

  function LastOf<T>(s: seq<T>, n: nat): seq<T> {
    if |s| > n then s[|s| - n..] else s
  }

  /** The first 500 bytes; a string stands for its bytes here. */
  function Cut(reason: string): string {
    if |reason| > REASON_CHARS then reason[..REASON_CHARS] else reason
  }

  function Rated(r: Record, like: bool, reason: string, at: nat): Record {
    r.(likes := r.likes + if like then 1 else 0,
       dislikes := r.dislikes + if like then 0 else 1,
       lastFeedbackAt := Some(at),
       reasons := if reason == "" then r.reasons else LastOf(r.reasons + [reason], REASON_LIMIT))
  }

  function Used(r: Record, at: nat): Record {
    r.(retrievals := r.retrievals + 1, lastUsedAt := Some(at))
  }

  function UseAll(m: Entries, keys: seq<Key>, at: nat): Entries {
    if keys == [] then m
    else
      var n := |keys| - 1;
      UseOne(UseAll(m, keys[..n], at), keys[n], at)
  }

  function DropAll(m: Entries, keys: seq<Key>): Entries {
    if keys == [] then m
    else
      var n := |keys| - 1;
      var before := DropAll(m, keys[..n]);
      if keys[n] == "" then before else before - {keys[n]}
  }

  function Mutate(m: Entries, mut: Mutation): Entries {
    match mut
    case Rate(key, like, reason, at) => m[key := Rated(Find(m, key), like, reason, at)]
    case Retrieve(keys, at) => UseAll(m, keys, at)
    case Drop(keys) => DropAll(m, keys)
  }

  function Replay(log: seq<Mutation>): Entries {
    if log == [] then map[] else Mutate(Replay(log[..|log| - 1]), log[|log| - 1])
  }

  // ----- What the file means: the key's events since its last delete -----

  datatype Event = RatedEvent(like: bool, reason: string, at: nat) | UsedEvent(at: nat)

  function Uses(keys: seq<Key>, key: Key, at: nat): seq<Event> {
    if keys == [] then []
    else Uses(keys[..|keys| - 1], key, at) + if keys[|keys| - 1] == key then [UsedEvent(at)] else []
  }

  function EventsOf(log: seq<Mutation>, key: Key): seq<Event> {
    if log == [] then []
    else
      var earlier := EventsOf(log[..|log| - 1], key);
      match log[|log| - 1]
      case Rate(k, like, reason, at) => if k == key then earlier + [RatedEvent(like, reason, at)] else earlier
      case Retrieve(keys, at) => earlier + Uses(keys, key, at)
      case Drop(keys) => if key in keys then [] else earlier
  }

  function CountRatings(ev: seq<Event>, like: bool): nat {
    if ev == [] then 0
    else
      var e := ev[|ev| - 1];
      CountRatings(ev[..|ev| - 1], like) + if e.RatedEvent? && e.like == like then 1 else 0
  }

  function CountUses(ev: seq<Event>): nat {
    if ev == [] then 0 else CountUses(ev[..|ev| - 1]) + if ev[|ev| - 1].UsedEvent? then 1 else 0
  }

  function ReasonsGiven(ev: seq<Event>): seq<string> {
    if ev == [] then []
    else
      var e := ev[|ev| - 1];
      ReasonsGiven(ev[..|ev| - 1]) + if e.RatedEvent? && e.reason != "" then [e.reason] else []
  }

  function LastTime(ev: seq<Event>, rated: bool): Option<nat> {
    if ev == [] then None
    else if ev[|ev| - 1].RatedEvent? == rated then Some(ev[|ev| - 1].at)
    else LastTime(ev[..|ev| - 1], rated)
  }

  function Summary(ev: seq<Event>): Record {
    Record(CountRatings(ev, true), CountRatings(ev, false), CountUses(ev),
           LastOf(ReasonsGiven(ev), REASON_LIMIT), LastTime(ev, true), LastTime(ev, false))
  }

  ghost predicate Summarises(m: Entries, key: Key, ev: seq<Event>) {
    (key in m <==> ev != []) && Find(m, key) == Summary(ev)
  }

  lemma LastOfGrows<T>(s: seq<T>, x: T, n: nat)
    requires n > 0
    ensures LastOf(LastOf(s, n) + [x], n) == LastOf(s + [x], n)
  {
  }

  lemma SummaryRated(ev: seq<Event>, like: bool, reason: string, at: nat)
    ensures Summary(ev + [RatedEvent(like, reason, at)]) == Rated(Summary(ev), like, reason, at)
  {
    var ev' := ev + [RatedEvent(like, reason, at)];
    assert ev'[..|ev|] == ev;
    if reason != "" {
      LastOfGrows(ReasonsGiven(ev), reason, REASON_LIMIT);
    }
  }

  lemma SummaryUsed(ev: seq<Event>, at: nat)
    ensures Summary(ev + [UsedEvent(at)]) == Used(Summary(ev), at)
  {
    assert (ev + [UsedEvent(at)])[..|ev|] == ev;
  }

  function UseOne(m: Entries, key: Key, at: nat): Entries {
    if key == "" then m else m[key := Used(Find(m, key), at)]
  }

  lemma UseSummarised(m: Entries, key: Key, ev: seq<Event>, k: Key, at: nat)
    requires key != "" && Summarises(m, key, ev)
    ensures Summarises(UseOne(m, k, at), key, if k == key then ev + [UsedEvent(at)] else ev)
  {
    hide Summary, Used;
    if k == key {
      SummaryUsed(ev, at);
    }
  }

  lemma {:induction false} UsesSummarised(m: Entries, key: Key, ev: seq<Event>, keys: seq<Key>, at: nat)
    requires key != "" && Summarises(m, key, ev)
    ensures Summarises(UseAll(m, keys, at), key, ev + Uses(keys, key, at))
  {
    if keys == [] {
      assert ev + [] == ev;
    } else {
      hide Summarises, UseOne;
      var n := |keys| - 1;
      var earlier := ev + Uses(keys[..n], key, at);
      UsesSummarised(m, key, ev, keys[..n], at);
      UseSummarised(UseAll(m, keys[..n], at), key, earlier, keys[n], at);
      assert ev + Uses(keys, key, at) == if keys[n] == key then earlier + [UsedEvent(at)] else earlier;
    }
  }

  lemma {:induction false} DropsSummarised(m: Entries, key: Key, keys: seq<Key>)
    requires key != ""
    ensures if key in keys then key !in DropAll(m, keys)
            else (key in DropAll(m, keys) <==> key in m) && Find(DropAll(m, keys), key) == Find(m, key)
  {
    if keys != [] {
      DropsSummarised(m, key, keys[..|keys| - 1]);
      assert keys == keys[..|keys| - 1] + [keys[|keys| - 1]];
    }
  }

  /** No update is lost: a key's record counts every rating and retrieval committed since its last
      delete, and keeps the last ten reasons given. */
  lemma {:induction false} ReplaySummarises(log: seq<Mutation>, key: Key)
    requires key != ""
    ensures Summarises(Replay(log), key, EventsOf(log, key))
  {
    if log != [] {
      var before, mut := log[..|log| - 1], log[|log| - 1];
      ReplaySummarises(before, key);
      hide Summary, Rated, UseAll, DropAll;
      match mut
      case Rate(k, like, reason, at) => SummaryRated(EventsOf(before, key), like, reason, at);
      case Retrieve(keys, at) => UsesSummarised(Replay(before), key, EventsOf(before, key), keys, at);
      case Drop(keys) =>
        DropsSummarised(Replay(before), key, keys);
        SummaryEmpty();
    } else {
      SummaryEmpty();
    }
  }

  lemma SummaryEmpty()
    ensures Summary([]) == EMPTY_RECORD
  {
  }

  // ----- Several processes over one file -----

  type Proc = nat

  /** Inside the lock: the file reloaded, then the new file written but not yet swapped in. */
  datatype Holder = Free | Reloaded(p: Proc) | Written(p: Proc, next: Entries)

  datatype Shared = Shared(
    disk: Entries, log: seq<Mutation>, past: seq<Entries>, memory: map<Proc, Entries>, seen: map<Proc, nat>,
    holder: Holder)

  const START := Shared(map[], [], [map[]], map[], map[], Free)

  datatype Move =
    | Load(p: Proc)
    | Acquire(p: Proc)
    | Write(mut: Mutation)
    | Swap
    | Fail

  predicate Enabled(s: Shared, m: Move) {
    match m
    case Load(p) => p !in s.memory
    case Acquire(p) => p in s.memory && s.holder.Free?
    case Write(mut) => s.holder.Reloaded? && s.holder.p in s.memory
    case Swap => s.holder.Written?
    case Fail => s.holder.Reloaded?
  }

  /** `seen` and `past` only observe: the number of the version each process holds. */
  function Read(s: Shared, p: Proc): Shared {
    s.(memory := s.memory[p := s.disk], seen := s.seen[p := |s.log|])
  }

  function Next(s: Shared, m: Move): Shared
    requires Enabled(s, m)
  {
    match m
    case Load(p) => Read(s, p)
    case Acquire(p) => Read(s, p).(holder := Reloaded(p))
    case Write(mut) =>
      var next := Mutate(s.memory[s.holder.p], mut);
      s.(disk := next, log := s.log + [mut], past := s.past + [next], holder := Written(s.holder.p, next))
    case Swap =>
      s.(memory := s.memory[s.holder.p := s.holder.next], seen := s.seen[s.holder.p := |s.log|], holder := Free)
    case Fail => s.(holder := Free)
  }

  ghost predicate PastHolds(log: seq<Mutation>, past: seq<Entries>) {
    |past| == |log| + 1 && forall i :: 0 <= i <= |log| ==> past[i] == Replay(log[..i])
  }

  ghost predicate MemoryHolds(past: seq<Entries>, memory: map<Proc, Entries>, seen: map<Proc, nat>) {
    memory.Keys == seen.Keys && forall p :: p in memory ==> seen[p] < |past| && memory[p] == past[seen[p]]
  }

  ghost predicate Inv(s: Shared) {
    && PastHolds(s.log, s.past)
    && MemoryHolds(s.past, s.memory, s.seen)
    && s.disk == s.past[|s.log|]
    && (s.holder.Reloaded? ==> s.holder.p in s.memory && s.memory[s.holder.p] == s.disk)
    && (s.holder.Written? ==> s.holder.p in s.memory && s.holder.next == s.disk)
  }

  lemma PastGrows(log: seq<Mutation>, past: seq<Entries>, mut: Mutation)
    requires PastHolds(log, past)
    ensures PastHolds(log + [mut], past + [Mutate(past[|log|], mut)])
  {
    hide Mutate;
    var log', past' := log + [mut], past + [Mutate(past[|log|], mut)];
    assert log'[..|log|] == log == log[..|log|] && log'[..|log'|] == log';
    forall i | 0 <= i <= |log'| ensures past'[i] == Replay(log'[..i]) {
      if i <= |log| {
        assert log'[..i] == log[..i];
      }
    }
  }

  lemma MemoryGrows(past: seq<Entries>, next: Entries, memory: map<Proc, Entries>, seen: map<Proc, nat>)
    requires MemoryHolds(past, memory, seen)
    ensures MemoryHolds(past + [next], memory, seen)
  {
  }

  lemma MemoryReads(past: seq<Entries>, memory: map<Proc, Entries>, seen: map<Proc, nat>, p: Proc, n: nat)
    requires MemoryHolds(past, memory, seen) && n < |past|
    ensures MemoryHolds(past, memory[p := past[n]], seen[p := n])
  {
  }

  lemma StepKeepsInv(s: Shared, m: Move)
    requires Inv(s) && Enabled(s, m)
    ensures Inv(Next(s, m))
  {
    hide Mutate, PastHolds, MemoryHolds;
    assert |s.past| == |s.log| + 1 by {
      PastSize(s.log, s.past);
    }
    match m
    case Load(p) => MemoryReads(s.past, s.memory, s.seen, p, |s.log|);
    case Acquire(p) => MemoryReads(s.past, s.memory, s.seen, p, |s.log|);
    case Write(mut) =>
      PastGrows(s.log, s.past, mut);
      MemoryGrows(s.past, Next(s, m).disk, s.memory, s.seen);
    case Swap => MemoryReads(s.past, s.memory, s.seen, s.holder.p, |s.log|);
    case Fail =>
  }

  /** Only a write inside the lock commits; it applies its change, and it alone, to what the file held. */
  lemma WriteCommits(s: Shared, m: Move)
    requires Inv(s) && Enabled(s, m)
    ensures m.Write? ==> Next(s, m).log == s.log + [m.mut] && Next(s, m).disk == Mutate(s.disk, m.mut)
    ensures !m.Write? ==> Next(s, m).log == s.log && Next(s, m).disk == s.disk
  {
    hide Mutate, PastHolds;
  }

  lemma PastSize(log: seq<Mutation>, past: seq<Entries>)
    requires PastHolds(log, past)
    ensures |past| == |log| + 1
  {
  }

  /** A process's copy never goes back to an older version, and the file's past is never rewritten. */
  lemma StepNeverGoesBack(s: Shared, m: Move, p: Proc)
    requires Inv(s) && Enabled(s, m) && p in s.memory
    ensures p in Next(s, m).memory && s.seen[p] <= Next(s, m).seen[p]
    ensures s.log <= Next(s, m).log && s.past <= Next(s, m).past
  {
    hide Mutate, PastHolds;
    PastSize(s.log, s.past);
  }

  ghost predicate IsRun(run: seq<Shared>, moves: seq<Move>) {
    && |run| == |moves| + 1 && run[0] == START
    && forall i :: 0 <= i < |moves| ==> Enabled(run[i], moves[i]) && run[i + 1] == Next(run[i], moves[i])
  }

  lemma {:induction false} RunKeepsInv(run: seq<Shared>, moves: seq<Move>, i: nat)
    requires IsRun(run, moves) && i < |run|
    ensures Inv(run[i])
  {
    if i > 0 {
      RunKeepsInv(run, moves, i - 1);
      StepKeepsInv(run[i - 1], moves[i - 1]);
    }
  }

  /** In every run the file records all that was committed, whoever committed it. */
  lemma RunLosesNothing(run: seq<Shared>, moves: seq<Move>, i: nat, key: Key)
    requires IsRun(run, moves) && i < |run| && key != ""
    ensures Summarises(run[i].disk, key, EventsOf(run[i].log, key))
  {
    RunKeepsInv(run, moves, i);
    assert run[i].log[..|run[i].log|] == run[i].log;
    ReplaySummarises(run[i].log, key);
  }

  lemma {:induction false} RunNeverGoesBack(run: seq<Shared>, moves: seq<Move>, i: nat, j: nat, p: Proc)
    requires IsRun(run, moves) && i <= j < |run| && p in run[i].memory
    ensures p in run[i].seen && p in run[j].memory && p in run[j].seen && run[i].seen[p] <= run[j].seen[p]
    decreases j
  {
    hide PastHolds, Next, Enabled;
    RunKeepsInv(run, moves, i);
    if i < j {
      RunNeverGoesBack(run, moves, i, j - 1, p);
      RunKeepsInv(run, moves, j - 1);
      StepNeverGoesBack(run[j - 1], moves[j - 1], p);
      RunKeepsInv(run, moves, j);
    }
  }

  /** One rating more: it counts on its side, stamps the time, and its reason, cut to 500 bytes, joins the
      last ten. */
  ghost predicate OneRating(was: Record, now: Record, like: bool, reason: string, at: nat) {
    && now.likes == was.likes + (if like then 1 else 0) && now.dislikes == was.dislikes + (if like then 0 else 1)
    && now.retrievals == was.retrievals && now.lastUsedAt == was.lastUsedAt && now.lastFeedbackAt == Some(at)
    && (reason == "" ==> now.reasons == was.reasons)
    && (reason != "" ==>
          var all := was.reasons + [if |reason| <= 500 then reason else reason[..500]];
          now.reasons == if |all| <= 10 then all else all[|all| - 10..])
  }

  lemma RatedMeans(m: Entries, key: Key, like: bool, reason: string, at: nat)
    ensures
      var after := Mutate(m, Rate(key, like, Cut(reason), at));
      key in after && after == m[key := after[key]] && OneRating(Find(m, key), after[key], like, reason, at)
  {
  }

  // ----- The store object -----

  class File {
    var contents: Entries
    constructor ()
      ensures contents == map[]
    {
      contents := map[];
    }
  }

  class Store {
    const file: File
    var entries: Entries

    /** LoadFeedback. */
    constructor (file: File)
      ensures this.file == file && entries == file.contents
    {
      this.file, entries := file, file.contents;
    }

    method Get(key: Key) returns (rec: Option<Record>)
      ensures rec == if key in entries then Some(entries[key]) else None
    {
      rec := if key in entries then Some(entries[key]) else None;
    }

    method RecordRating(key: Key, rating: Rating, reason: string, now: nat) returns (ok: bool)
      modifies this`entries, file
      ensures ok <==> key != "" && rating != OtherRating
      ensures ok ==> file.contents == Mutate(old(file.contents), Rate(key, rating == Like, Cut(reason), now))
      ensures ok ==> entries == file.contents
      ensures !ok ==> file.contents == old(file.contents) && entries == old(entries)
      ensures ok ==>
        && key in file.contents && file.contents == old(file.contents)[key := file.contents[key]]
        && OneRating(Find(old(file.contents), key), file.contents[key], rating == Like, reason, now)
    {
      RatedMeans(file.contents, key, rating == Like, reason, now);
      hide OneRating;
      if key == "" {
        return false;
      }
      if rating != Like && rating != Dislike {
        return false;
      }
      var cut := Cut(reason);
      entries := file.contents;
      var next := entries;
      var rec := if key in next then next[key] else EMPTY_RECORD;
      if rating == Like {
        rec := rec.(likes := rec.likes + 1);
      } else {
        rec := rec.(dislikes := rec.dislikes + 1);
      }
      rec := rec.(lastFeedbackAt := Some(now));
      if cut != "" {
        var reasons := rec.reasons + [cut];
        if |reasons| > REASON_LIMIT {
          reasons := reasons[|reasons| - REASON_LIMIT..];
        }
        rec := rec.(reasons := reasons);
      }
      next := next[key := rec];
      file.contents := next;
      entries := next;
      ok := true;
    }

    method RecordRetrieval(keys: seq<Key>, now: nat)
      modifies this`entries, file
      ensures file.contents == Mutate(old(file.contents), Retrieve(keys, now))
      ensures entries == if keys == [] then old(entries) else file.contents
    {
      if keys == [] {
        return;
      }
      entries := file.contents;
      var next := entries;
      for i := 0 to |keys|
        invariant next == UseAll(old(file.contents), keys[..i], now)
      {
        assert keys[..i + 1][..i] == keys[..i];
        var key := keys[i];
        if key == "" {
          continue;
        }
        var rec := if key in next then next[key] else EMPTY_RECORD;
        next := next[key := rec.(retrievals := rec.retrievals + 1, lastUsedAt := Some(now))];
      }
      assert keys[..|keys|] == keys;
      file.contents := next;
      entries := next;
    }

    method DeleteMany(keys: seq<Key>)
      modifies this`entries, file
      ensures file.contents == Mutate(old(file.contents), Drop(keys))
      ensures entries == if keys == [] then old(entries) else file.contents
    {
      if keys == [] {
        return;
      }
      entries := file.contents;
      var next := entries;
      for i := 0 to |keys|
        invariant next == DropAll(old(file.contents), keys[..i])
      {
        assert keys[..i + 1][..i] == keys[..i];
        if keys[i] != "" {
          next := next - {keys[i]};
        }
      }
      assert keys[..|keys|] == keys;
      file.contents := next;
      entries := next;
    }
  }
}
