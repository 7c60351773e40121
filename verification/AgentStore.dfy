/** The registry's methods over its three directories, run one at a time, and the pass that builds the
    key index where none existed. */
module AgentStore {
  import opened Common
  import opened AgentRegistry

  datatype ArchiveReport = ArchiveReport(archived: nat, indexed: nat)

  /** A registry whose index may have gaps but no wrong entry, with at most one unexpired holder a key. */
  ghost predicate GapsOnly(f: Files, now: int) {
    forall r, key :: key != "" && IsHolder(f, key, now, r) ==>
      && (key in f.index ==> f.index[key] == r.id)
      && forall s :: IsHolder(f, key, now, s) ==> s == r
  }

  ghost predicate LongExpired(rec: Rec, now: int, grace: int) {
    rec.expires + grace < now
  }

  lemma ArchiveOneKeepsGaps(f: Files, rec: Rec, now: int)
    requires FilesOk(f) && GapsOnly(f, now)
    ensures GapsOnly(ArchiveOne(f, rec), now)
  {
    var g := ArchiveOne(f, rec);
    forall r, key | key != "" && IsHolder(g, key, now, r)
      ensures (key in g.index ==> g.index[key] == r.id) && forall s :: IsHolder(g, key, now, s) ==> s == r {
      assert IsHolder(f, key, now, r);
      forall s | IsHolder(g, key, now, s) ensures s == r {
        assert IsHolder(f, key, now, s);
      }
    }
  }

  lemma {:induction false} ArchiveBatchKeepsGaps(f: Files, batch: seq<Rec>, now: int)
    requires FilesOk(f) && GapsOnly(f, now) && forall rec :: rec in batch ==> StillTrue(f, rec)
    ensures GapsOnly(ArchiveBatch(f, batch), now)
  {
    if batch != [] {
      var n := |batch| - 1;
      ArchiveBatchKeepsGaps(f, batch[..n], now);
      ArchiveBatchKeeps(f, batch[..n], now);
      ArchiveOneKeepsGaps(ArchiveBatch(f, batch[..n]), batch[n], now);
    }
  }

  /** Exactly the batch leaves the live directory. */
  lemma {:induction false} ArchiveBatchMoves(f: Files, batch: seq<Rec>)
    requires FilesOk(f)
    ensures forall id :: id in ArchiveBatch(f, batch).live <==>
              id in f.live && forall rec :: rec in batch ==> rec.id != id
    ensures forall id :: id in ArchiveBatch(f, batch).live ==> ArchiveBatch(f, batch).live[id] == f.live[id]
  {
    if batch != [] {
      var n := |batch| - 1;
      ArchiveBatchMoves(f, batch[..n]);
      assert batch == batch[..n] + [batch[n]];
    }
  }

  /** Only entries that name a record of the batch are dropped. */
  lemma {:induction false} ArchiveBatchIndex(f: Files, batch: seq<Rec>)
    ensures ArchiveBatch(f, batch).index.Keys <= f.index.Keys
    ensures forall k :: k in f.index && (forall rec :: rec in batch ==> rec.id != f.index[k]) ==>
              k in ArchiveBatch(f, batch).index && ArchiveBatch(f, batch).index[k] == f.index[k]
  {
    if batch != [] {
      var n := |batch| - 1;
      ArchiveBatchIndex(f, batch[..n]);
      assert batch == batch[..n] + [batch[n]];
    }
  }

  lemma {:induction false} DistinctIdsCount(recs: seq<Rec>)
    requires DistinctRecs(recs)
    ensures |set rec | rec in recs :: rec.id| == |recs|
  {
    if recs != [] {
      var n := |recs| - 1;
      DistinctIdsCount(recs[..n]);
      assert recs == recs[..n] + [recs[n]];
      assert (set rec | rec in recs :: rec.id) == (set rec | rec in recs[..n] :: rec.id) + {recs[n].id};
    }
  }

  ghost predicate DistinctRecs(recs: seq<Rec>) {
    forall i, j :: 0 <= i < j < |recs| ==> recs[i].id != recs[j].id
  }

  ghost function LongExpiredIds(live: map<Id, Rec>, now: int, grace: int): set<Id> {
    set id | id in live && LongExpired(live[id], now, grace)
  }

  /** What the unlocked reading loop chooses. */
  ghost predicate Chosen(f: Files, now: int, grace: int, toArchive: seq<Rec>, toIndex: seq<Rec>) {
    && (forall rec :: rec in toArchive <==> rec.id in f.live && f.live[rec.id] == rec && LongExpired(rec, now, grace))
    && (forall rec :: rec in toIndex <==> rec.key != "" && IsHolder(f, rec.key, now, rec))
    && DistinctRecs(toArchive)
  }

  ghost predicate ChosenSoFar(f: Files, now: int, grace: int, names: set<Id>, toArchive: seq<Rec>, toIndex: seq<Rec>) {
    && (forall rec :: rec in toArchive <==>
      rec.id in f.live && rec.id !in names && f.live[rec.id] == rec && LongExpired(rec, now, grace))
    && (forall rec :: rec in toIndex <==> rec.id !in names && rec.key != "" && IsHolder(f, rec.key, now, rec))
    && DistinctRecs(toArchive)
  }

  lemma ChooseOne(f: Files, now: int, grace: int, names: set<Id>, toArchive: seq<Rec>, toIndex: seq<Rec>, name: Id)
    requires FilesOk(f) && grace >= 0 && ChosenSoFar(f, now, grace, names, toArchive, toIndex)
    requires name in names && name in f.live
    ensures
      var rec := f.live[name];
      ChosenSoFar(f, now, grace, names - {name},
                  if rec.expires + grace < now then toArchive + [rec] else toArchive,
                  if rec.expires + grace < now || rec.expires <= now || rec.key == "" then toIndex else toIndex + [rec])
  {
    forall i | 0 <= i < |toArchive| ensures toArchive[i].id != name {
      assert toArchive[i] in toArchive;
    }
  }

  lemma NoneChosen(f: Files, now: int, grace: int)
    ensures ChosenSoFar(f, now, grace, f.live.Keys, [], [])
  {
  }

  lemma AllChosen(f: Files, now: int, grace: int, toArchive: seq<Rec>, toIndex: seq<Rec>)
    requires ChosenSoFar(f, now, grace, {}, toArchive, toIndex)
    ensures Chosen(f, now, grace, toArchive, toIndex)
  {
  }

  lemma ChosenCount(f: Files, now: int, grace: int, toArchive: seq<Rec>, toIndex: seq<Rec>)
    requires FilesOk(f) && Chosen(f, now, grace, toArchive, toIndex)
    ensures |toArchive| == |LongExpiredIds(f.live, now, grace)|
  {
    DistinctIdsCount(toArchive);
    var ids := LongExpiredIds(f.live, now, grace);
    forall id | id in ids ensures id in (set rec | rec in toArchive :: rec.id) {
      assert f.live[id] in toArchive;
    }
    assert (set rec | rec in toArchive :: rec.id) == ids;
  }

  /** A key that archiving freed is not filled again: it has no unexpired holder. */
  lemma FreedStaysFree(f: Files, now: int, grace: int, toArchive: seq<Rec>, toIndex: seq<Rec>, key: Key)
    requires GapsOnly(f, now) && grace >= 0 && Chosen(f, now, grace, toArchive, toIndex)
    requires key in f.index && key !in ArchiveBatch(f, toArchive).index
    ensures key !in IndexBatch(ArchiveBatch(f, toArchive), toIndex).index
  {
    var g := ArchiveBatch(f, toArchive);
    ArchiveBatchIndex(f, toArchive);
    IndexBatchFills(g, toIndex);
    forall rec | rec in toIndex ensures rec.key != key {
      assert IsHolder(f, rec.key, now, rec);
      assert forall r :: r in toArchive ==> r.id != rec.id;
    }
  }

  lemma NewKeys(f: Files, now: int, grace: int, toArchive: seq<Rec>, toIndex: seq<Rec>)
    requires GapsOnly(f, now) && grace >= 0 && Chosen(f, now, grace, toArchive, toIndex)
    ensures
      var g := ArchiveBatch(f, toArchive);
      var h := IndexBatch(g, toIndex);
      h.index.Keys - g.index.Keys == h.index.Keys - f.index.Keys
  {
    hide GapsOnly, Chosen, ArchiveBatch, IndexBatch;
    ArchiveBatchIndex(f, toArchive);
    forall key | key in f.index && key !in ArchiveBatch(f, toArchive).index
      ensures key !in IndexBatch(ArchiveBatch(f, toArchive), toIndex).index
    {
      FreedStaysFree(f, now, grace, toArchive, toIndex, key);
    }
  }

  /** Backfilling names every listed key, each new entry after some listed record with that key. */
  lemma {:induction false} IndexBatchFills(f: Files, recs: seq<Rec>)
    ensures forall rec :: rec in recs ==> rec.key in IndexBatch(f, recs).index
    ensures forall k :: k in IndexBatch(f, recs).index && k !in f.index ==>
              exists rec :: rec in recs && rec.key == k && IndexBatch(f, recs).index[k] == rec.id
    ensures forall k :: k in f.index ==> k in IndexBatch(f, recs).index && IndexBatch(f, recs).index[k] == f.index[k]
  {
    if recs != [] {
      var n := |recs| - 1;
      IndexBatchFills(f, recs[..n]);
      assert recs == recs[..n] + [recs[n]];
      var before, after := IndexBatch(f, recs[..n]), IndexBatch(f, recs);
      forall k | k in after.index && k !in f.index
        ensures exists rec :: rec in recs && rec.key == k && after.index[k] == rec.id {
        if k in before.index {
          var rec :| rec in recs[..n] && rec.key == k && before.index[k] == rec.id;
          assert rec in recs;
        } else {
          assert recs[n] in recs;
        }
      }
    }
  }

  /** Backfilling every unexpired keyed record closes every gap. */
  lemma FilledIsIndexed(f: Files, recs: seq<Rec>, now: int)
    requires FilesOk(f) && GapsOnly(f, now)
    requires forall rec :: rec in recs ==> rec.key != "" && IsHolder(f, rec.key, now, rec)
    requires forall id :: id in f.live && f.live[id].key != "" && f.live[id].expires > now ==> f.live[id] in recs
    ensures Indexed(IndexBatch(f, recs), now)
  {
    IndexBatchKeeps(f, recs, now);
    IndexBatchFills(f, recs);
    var g := IndexBatch(f, recs);
    forall id | id in g.live && g.live[id].key != "" && g.live[id].expires > now
      ensures g.live[id].key in g.index && g.index[g.live[id].key] == id {
      var r := f.live[id];
      assert IsHolder(f, r.key, now, r) && r in recs;
      if r.key !in f.index {
        var rec :| rec in recs && rec.key == r.key && g.index[r.key] == rec.id;
        assert IsHolder(f, r.key, now, rec);
      }
    }
  }

  lemma IndexNothing(f: Files)
    ensures IndexBatch(f, []) == f && f.index.Keys - f.index.Keys == {}
  {
  }

  lemma IndexOneMore(f: Files, recs: seq<Rec>, i: nat)
    requires i < |recs|
    ensures IndexBatch(f, recs[..i + 1]) == IndexOne(IndexBatch(f, recs[..i]), recs[i])
    ensures f.index.Keys <= IndexBatch(f, recs[..i]).index.Keys
  {
    assert recs[..i + 1][..i] == recs[..i];
    IndexBatchKeeps(f, recs[..i], 0);
  }

  lemma OneKeyMore(before: map<Key, Id>, index: map<Key, Id>, key: Key, id: Id)
    requires before.Keys <= index.Keys && key !in index
    ensures |index[key := id].Keys - before.Keys| == |index.Keys - before.Keys| + 1
  {
    assert index[key := id].Keys - before.Keys == (index.Keys - before.Keys) + {key};
  }

  lemma ArchiveNothing(f: Files)
    ensures ArchiveBatch(f, []) == f
  {
  }

  lemma ArchiveOneMore(f: Files, recs: seq<Rec>, i: nat)
    requires FilesOk(f) && DistinctRecs(recs) && i < |recs| && forall rec :: rec in recs ==> rec.id in f.live
    ensures ArchiveBatch(f, recs[..i + 1]) == ArchiveOne(ArchiveBatch(f, recs[..i]), recs[i])
    ensures recs[i].id in ArchiveBatch(f, recs[..i]).live
  {
    assert recs[..i + 1][..i] == recs[..i];
    hide ArchiveBatch, ArchiveOne;
    ArchiveBatchMoves(f, recs[..i]);
    assert recs[i] in recs;
  }

  lemma ChosenAre(f: Files, now: int, grace: int, toArchive: seq<Rec>, toIndex: seq<Rec>)
    requires Chosen(f, now, grace, toArchive, toIndex) && FilesOk(f)
    ensures DistinctRecs(toArchive) && forall rec :: rec in toArchive ==> rec.id in f.live && StillTrue(f, rec)
  {
  }

  /** Exactly the long-expired records leave the live directory. */
  lemma ArchivedAre(f: Files, now: int, grace: int, toArchive: seq<Rec>, toIndex: seq<Rec>)
    requires Chosen(f, now, grace, toArchive, toIndex) && FilesOk(f)
    ensures forall id :: id in ArchiveBatch(f, toArchive).live <==> id in f.live && !LongExpired(f.live[id], now, grace)
    ensures forall id :: id in ArchiveBatch(f, toArchive).live ==> ArchiveBatch(f, toArchive).live[id] == f.live[id]
  {
    hide ArchiveBatch, LongExpired;
    ArchiveBatchMoves(f, toArchive);
    forall id | id in f.live ensures f.live[id] in toArchive <==> LongExpired(f.live[id], now, grace) {
    }
    forall rec | rec in toArchive ensures f.live[rec.id] == rec {
    }
  }

  /** The records to index are still the unexpired keyed ones after archiving. */
  lemma StillChosen(f: Files, g: Files, now: int, grace: int, toArchive: seq<Rec>, toIndex: seq<Rec>)
    requires Chosen(f, now, grace, toArchive, toIndex) && FilesOk(f) && grace >= 0
    requires forall id :: id in g.live <==> id in f.live && !LongExpired(f.live[id], now, grace)
    requires forall id :: id in g.live ==> g.live[id] == f.live[id]
    ensures forall rec :: rec in toIndex ==> rec.key != "" && IsHolder(g, rec.key, now, rec)
    ensures forall id :: id in g.live && g.live[id].key != "" && g.live[id].expires > now ==> g.live[id] in toIndex
  {
  }

  class Store {
    var live: map<Id, Rec>
    var archived: map<Id, Rec>
    var index: map<Key, Id>

    ghost function Abs(): Files
      reads this
    {
      Files(live, archived, index)
    }

    constructor ()
      ensures Abs() == Files(map[], map[], map[])
    {
      live, archived, index := map[], map[], map[];
    }

    method FindActiveHolder(key: Key, now: int) returns (holder: Option<Rec>)
      ensures holder == ActiveHolder(Abs(), key, now)
    {
      if key !in index {
        return None;
      }
      var id := index[key];
      if id !in live {
        return None;
      }
      var rec := live[id];
      if rec.key != key || !(rec.expires > now) {
        return None;
      }
      return Some(rec);
    }

    method RegisterAgent(rec: Rec, now: int) returns (err: Option<Error>)
      modifies this
      ensures match Register(old(Abs()), rec, now) {
                case Ok(f) => err == None && Abs() == f
                case Err(e) => err == Some(e) && Abs() == old(Abs())
              }
    {
      if rec.id == "" || rec.key == "" {
        return Some(InvalidArgument);
      }
      var holder := FindActiveHolder(rec.key, now);
      if holder.Some? && holder.value.id != rec.id {
        return Some(AlreadyExists);
      }
      live := live[rec.id := rec];
      index := index[rec.key := rec.id];
      return None;
    }

    method MoveOne(rec: Rec) returns (moved: bool)
      modifies this
      ensures Abs() == ArchiveOne(old(Abs()), rec)
      ensures moved <==> rec.id in old(live)
    {
      if rec.id !in live {
        return false;
      }
      archived := archived[rec.id := live[rec.id]];
      live := live - {rec.id};
      if rec.key != "" && rec.key in index && index[rec.key] == rec.id {
        index := index - {rec.key};
      }
      return true;
    }

    /** The unlocked reading loop of ArchiveExpired. */
    method ChooseRecords(now: int, grace: int) returns (toArchive: seq<Rec>, toIndex: seq<Rec>)
      requires FilesOk(Abs()) && grace >= 0
      ensures Chosen(Abs(), now, grace, toArchive, toIndex)
    {
      hide ChosenSoFar;
      toArchive, toIndex := [], [];
      var names := live.Keys;
      NoneChosen(Abs(), now, grace);
      while names != {}
        invariant names <= live.Keys && ChosenSoFar(Abs(), now, grace, names, toArchive, toIndex)
        decreases |names|
      {
        var name :| name in names;
        var rec := live[name];
        ChooseOne(Abs(), now, grace, names, toArchive, toIndex, name);
        if rec.expires + grace < now {
          toArchive := toArchive + [rec];
        } else if rec.expires > now && rec.key != "" {
          toIndex := toIndex + [rec];
        }
        names := names - {name};
      }
      AllChosen(Abs(), now, grace, toArchive, toIndex);
    }

    /** The archiving loops: batches of at most ARCHIVE_BATCH_SIZE, one lock hold each. */
    method MoveAll(toArchive: seq<Rec>) returns (count: nat)
      requires FilesOk(Abs()) && DistinctRecs(toArchive) && forall rec :: rec in toArchive ==> rec.id in live
      modifies this
      ensures Abs() == ArchiveBatch(old(Abs()), toArchive)
      ensures count == |toArchive|
    {
      hide ArchiveBatch;
      count := 0;
      var start := 0;
      ArchiveNothing(Abs());
      assert toArchive[..0] == [];
      while start < |toArchive|
        invariant 0 <= start <= |toArchive| && Abs() == ArchiveBatch(old(Abs()), toArchive[..start]) && count == start
      {
        var stop := MinInt(start + ARCHIVE_BATCH_SIZE, |toArchive|);
        for i := start to stop
          invariant Abs() == ArchiveBatch(old(Abs()), toArchive[..i]) && count == i
        {
          ArchiveOneMore(old(Abs()), toArchive, i);
          var moved := MoveOne(toArchive[i]);
          if moved {
            count := count + 1;
          }
        }
        start := stop;
      }
      assert toArchive[..|toArchive|] == toArchive;
    }

    method IndexAll(toIndex: seq<Rec>) returns (count: nat)
      modifies this`index
      ensures Abs() == IndexBatch(old(Abs()), toIndex)
      ensures count == |index.Keys - old(index).Keys|
    {
      hide IndexBatch;
      count := 0;
      IndexNothing(Abs());
      assert toIndex[..0] == [];
      for i := 0 to |toIndex|
        invariant Abs() == IndexBatch(old(Abs()), toIndex[..i])
        invariant count == |index.Keys - old(index).Keys|
      {
        IndexOneMore(old(Abs()), toIndex, i);
        var key := toIndex[i].key;
        if key !in index {
          OneKeyMore(old(index), index, key, toIndex[i].id);
          index := index[key := toIndex[i].id];
          count := count + 1;
        }
      }
      assert toIndex[..|toIndex|] == toIndex;
    }

    /** ArchiveExpired run without interference from an index with gaps: exactly the long-expired records
        leave agents/, afterwards the index names every unexpired keyed record, and the report counts both. */
    method ArchiveExpired(now: int, grace: int) returns (report: ArchiveReport)
      requires FilesOk(Abs()) && GapsOnly(Abs(), now) && grace >= 0
      modifies this
      ensures FilesOk(Abs()) && Indexed(Abs(), now) && Progress(old(Abs()), Abs())
      ensures forall id :: id in live <==> id in old(live) && !LongExpired(old(live)[id], now, grace)
      ensures report.archived == |LongExpiredIds(old(live), now, grace)|
      ensures report.indexed == |index.Keys - old(index).Keys|
    {
      hide ArchiveBatch, IndexBatch, GapsOnly, Indexed, FilesOk, Progress, Chosen;
      ghost var f := Abs();
      var toArchive, toIndex := ChooseRecords(now, grace);
      ChosenAre(f, now, grace, toArchive, toIndex);
      ChosenCount(f, now, grace, toArchive, toIndex);
      NewKeys(f, now, grace, toArchive, toIndex);
      ArchiveBatchKeeps(f, toArchive, now);
      ArchiveBatchKeepsGaps(f, toArchive, now);
      ArchivedAre(f, now, grace, toArchive, toIndex);
      var moved := MoveAll(toArchive);
      ghost var g := Abs();
      StillChosen(f, g, now, grace, toArchive, toIndex);
      FilledIsIndexed(g, toIndex, now);
      IndexBatchKeeps(g, toIndex, now);
      OnlyIndexChanged(g, IndexBatch(g, toIndex), now);
      ProgressChains(f, g, IndexBatch(g, toIndex));
      var filled := IndexAll(toIndex);
      report := ArchiveReport(moved, filled);
    }

    /** ReadAgent with the directory still. */
    method ReadAgent(id: Id) returns (r: Result<Rec>)
      ensures id in live ==> r == Ok(live[id])
      ensures id !in live && id in archived ==> r == Ok(archived[id])
      ensures !Registered(Abs(), id) ==> r == Err(NotFound)
    {
      if id in live {
        return Ok(live[id]);
      }
      if id in archived {
        return Ok(archived[id]);
      }
      return Err(NotFound);
    }
  }
}
