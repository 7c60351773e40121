/** The in-memory vector index: max-pooled cosine and bounded top-k search. */
module VecIndex {
  import opened Common
  import opened Cosine
  import opened MinHeap
  import Ordering

  datatype Kind = Unspecified | ProjectSummary | TicketBody | TicketLearnings | CommentBody

  datatype Entry = Entry(id: string, kind: Kind, owner: string, vec: Vec, vecs: seq<Vec>)

  const DEFAULT_LIMIT: nat := 10
  const MAX_LIMIT: nat := 50

  /** The vectors that score for an entry. */
  function Pool(e: Entry): (p: seq<Vec>)
    ensures p != []
  {
    if e.vecs == [] then [e.vec] else e.vecs
  }

  /** The greatest cosine over the vectors that have the query's length. */
  ghost predicate IsBest(query: Vec, vecs: seq<Vec>, sqrt: real -> real, best: real) {
    && (exists v :: v in vecs && |v| == |query| && Cos(query, v, sqrt) == best)
    && (forall v :: v in vecs && |v| == |query| ==> Cos(query, v, sqrt) <= best)
  }

  function Best(query: Vec, vecs: seq<Vec>, sqrt: real -> real): (best: Option<real>)
    ensures best.None? <==> forall v :: v in vecs ==> |v| != |query|
    ensures best.Some? ==> IsBest(query, vecs, sqrt, best.value)
  {
    if vecs == [] then None
    else
      var n := |vecs| - 1;
      var rest := Best(query, vecs[..n], sqrt);
      if |vecs[n]| != |query| then rest
      else
        var score := Cos(query, vecs[n], sqrt);
        if rest.Some? && score <= rest.value then rest else Some(score)
  }

  lemma BestIsUnique(query: Vec, vecs: seq<Vec>, sqrt: real -> real, best: real)
    requires IsBest(query, vecs, sqrt, best)
    ensures Best(query, vecs, sqrt) == Some(best)
  {
  }

  method MaxCosine(query: Vec, e: Entry, sqrt: real -> real) returns (best: real, found: bool)
    ensures found <==> exists v :: v in Pool(e) && |v| == |query|
    ensures found ==> IsBest(query, Pool(e), sqrt, best)
    ensures Best(query, Pool(e), sqrt) == if found then Some(best) else None
  {
    if e.vecs == [] {
      assert Pool(e) == [e.vec] && e.vec in Pool(e);
      if |e.vec| != |query| {
        return 0.0, false;
      }
      best := CosineLoop(query, e.vec, sqrt);
      BestIsUnique(query, Pool(e), sqrt, best);
      return best, true;
    }
    best, found := 0.0, false;
    for i := 0 to |e.vecs|
      invariant found <==> exists v :: v in e.vecs[..i] && |v| == |query|
      invariant found ==> IsBest(query, e.vecs[..i], sqrt, best)
    {
      var v := e.vecs[i];
      assert e.vecs[..i + 1] == e.vecs[..i] + [v];
      if |v| != |query| {
        continue;
      }
      assert v in e.vecs[..i + 1];
      var score := CosineLoop(query, v, sqrt);
      if !found || score > best {
        best, found := score, true;
      }
    }
    assert e.vecs[..|e.vecs|] == e.vecs == Pool(e);
    if found {
      BestIsUnique(query, Pool(e), sqrt, best);
    }
  }

  // ----- The best k of a set of scored ids -----

  /** kept holds a best `limit` of the scored ids: nothing left out beats anything kept. */
  ghost predicate TopOf(kept: multiset<Hit>, scores: map<string, real>, limit: nat) {
    && FairlyKept(kept, scores)
    && |kept| == (if |scores| < limit then |scores| else limit)
    && (|kept| < limit ==> forall id :: id in scores ==> Hit(id, scores[id]) in kept)
    && NothingBeats(kept, scores)
  }

  lemma OneMoreScore(scores: map<string, real>, x: Hit)
    requires x.id !in scores
    ensures |scores[x.id := x.score]| == |scores| + 1
  {
    var scores' := scores[x.id := x.score];
    assert scores'.Keys == scores.Keys + {x.id};
    assert |scores'| == |scores'.Keys| && |scores| == |scores.Keys|;
  }

  /** Each kept hit once, with its score. */
  ghost predicate FairlyKept(kept: multiset<Hit>, scores: map<string, real>) {
    forall h :: h in kept ==> kept[h] == 1 && h.id in scores && scores[h.id] == h.score
  }

  ghost predicate NothingBeats(kept: multiset<Hit>, scores: map<string, real>) {
    forall id, h :: id in scores && h in kept ==> Hit(id, scores[id]) in kept || scores[id] <= h.score
  }

  lemma FairlyKeptGrows(kept: multiset<Hit>, scores: map<string, real>, x: Hit)
    requires FairlyKept(kept, scores) && x.id !in scores
    ensures FairlyKept(kept, scores[x.id := x.score])
    ensures FairlyKept(kept + multiset{x}, scores[x.id := x.score])
  {
    assert x in kept ==> x.id in scores;
  }

  lemma FairlyKeptDrops(kept: multiset<Hit>, scores: map<string, real>, least: Hit)
    requires FairlyKept(kept, scores)
    ensures FairlyKept(kept - multiset{least}, scores)
  {
  }

  lemma TopPush(kept: multiset<Hit>, scores: map<string, real>, limit: nat, x: Hit)
    requires TopOf(kept, scores, limit) && x.id !in scores && |kept| < limit
    ensures TopOf(kept + multiset{x}, scores[x.id := x.score], limit)
  {
    var kept', scores' := kept + multiset{x}, scores[x.id := x.score];
    OneMoreScore(scores, x);
    FairlyKeptGrows(kept, scores, x);
    forall id | id in scores' ensures Hit(id, scores'[id]) in kept' {
      assert id != x.id ==> Hit(id, scores[id]) in kept;
    }
    hide FairlyKept;
    assert NothingBeats(kept', scores');
  }

  lemma NothingBeatsLeast(kept: multiset<Hit>, scores: map<string, real>, x: Hit, least: Hit, id: string, h: Hit)
    requires NothingBeats(kept, scores) && x.id !in scores && least in kept && least.score < x.score
    requires forall g :: g in kept ==> least.score <= g.score
    requires h in kept - multiset{least} + multiset{x} && id in scores
    ensures Hit(id, scores[id]) in kept - multiset{least} + multiset{x} || scores[id] <= h.score
  {
    var y := Hit(id, scores[id]);
    assert y in kept || scores[id] <= least.score;
    assert h == x || h in kept;
    assert y in kept && y != least ==> y in kept - multiset{least};
  }

  lemma TopReplace(kept: multiset<Hit>, scores: map<string, real>, limit: nat, x: Hit, least: Hit)
    requires TopOf(kept, scores, limit) && x.id !in scores && |kept| == limit
    requires least in kept && (forall h :: h in kept ==> least.score <= h.score) && least.score < x.score
    ensures TopOf(kept - multiset{least} + multiset{x}, scores[x.id := x.score], limit)
  {
    var kept', scores' := kept - multiset{least} + multiset{x}, scores[x.id := x.score];
    OneMoreScore(scores, x);
    FairlyKeptDrops(kept, scores, least);
    FairlyKeptGrows(kept - multiset{least}, scores, x);
    hide FairlyKept, NothingBeats;
    forall id, h | id in scores' && h in kept' ensures Hit(id, scores'[id]) in kept' || scores'[id] <= h.score {
      if id == x.id {
        assert Hit(id, scores'[id]) == x;
      } else {
        NothingBeatsLeast(kept, scores, x, least, id, h);
      }
    }
    NothingBeatsIntro(kept', scores');
  }

  lemma NothingBeatsIntro(kept: multiset<Hit>, scores: map<string, real>)
    requires forall id, h :: id in scores && h in kept ==> Hit(id, scores[id]) in kept || scores[id] <= h.score
    ensures NothingBeats(kept, scores)
  {
  }

  lemma TopSkip(kept: multiset<Hit>, scores: map<string, real>, limit: nat, x: Hit, least: Hit)
    requires TopOf(kept, scores, limit) && x.id !in scores && |kept| == limit
    requires (forall h :: h in kept ==> least.score <= h.score) && x.score <= least.score
    ensures TopOf(kept, scores[x.id := x.score], limit)
  {
    var scores' := scores[x.id := x.score];
    OneMoreScore(scores, x);
    FairlyKeptGrows(kept, scores, x);
    hide FairlyKept;
    forall id, h | id in scores' && h in kept ensures Hit(id, scores'[id]) in kept || scores'[id] <= h.score {
      assert id != x.id ==> scores'[id] == scores[id];
    }
  }

  // ----- Result order -----

  /** Score descending, then id ascending. */
  predicate HitLess(a: Hit, b: Hit) {
    if a.score != b.score then a.score > b.score else Ordering.StrLess(a.id, b.id)
  }

  lemma HitOrder(s: seq<Hit>)
    ensures Ordering.StrictTotal(HitLess, s)
  {
    forall x: Hit, y: Hit, z: Hit | HitLess(x, y) && HitLess(y, z) ensures HitLess(x, z) {
      if x.score == y.score == z.score {
        Ordering.StrTransitive(x.id, y.id, z.id);
      }
    }
    forall x: Hit ensures !HitLess(x, x) {
      Ordering.StrIrreflexive(x.id);
    }
    forall x: Hit, y: Hit ensures x == y || HitLess(x, y) || HitLess(y, x) {
      Ordering.StrTrichotomous(x.id, y.id);
    }
  }

  lemma OnceEachNoDup(s: seq<Hit>)
    requires forall h :: h in s ==> multiset(s)[h] == 1
    ensures Ordering.NoDup(s)
  {
    forall i, j | 0 <= i < j < |s| ensures s[i] != s[j] {
      assert s == s[..i] + [s[i]] + s[i + 1..j] + [s[j]] + s[j + 1..];
      assert s[i] in s;
      assert multiset(s) ==
        multiset(s[..i]) + multiset{s[i]} + multiset(s[i + 1..j]) + multiset{s[j]} + multiset(s[j + 1..]);
    }
  }

  /** The search answer: a best `limit` of the scored ids, in result order. */
  ghost predicate IsRanking(out: seq<Hit>, scores: map<string, real>, limit: nat) {
    TopOf(multiset(out), scores, limit) && Ordering.Sorted(out, HitLess)
  }

  /** What a ranking promises its reader. */
  lemma RankingMeans(out: seq<Hit>, scores: map<string, real>, limit: nat)
    requires IsRanking(out, scores, limit)
    ensures |out| == if |scores| < limit then |scores| else limit
    ensures forall i, j :: 0 <= i < j < |out| ==> out[i].id != out[j].id
    ensures forall h :: h in out ==> h.id in scores && scores[h.id] == h.score
    ensures forall i, j :: 0 <= i < j < |out| ==> out[i].score >= out[j].score
    ensures forall id, h :: id in scores && (forall g :: g in out ==> g.id != id) && h in out ==> scores[id] <= h.score
  {
    forall i, j | 0 <= i < j < |out| ensures out[i].id != out[j].id && out[i].score >= out[j].score {
      assert HitLess(out[i], out[j]);
      assert out[i] in multiset(out) && out[j] in multiset(out);
      Ordering.StrIrreflexive(out[i].id);
    }
    assert forall h :: h in out ==> h in multiset(out);
  }

  /** Equal scores come in the order of their ids. */
  lemma TiesById(out: seq<Hit>, scores: map<string, real>, limit: nat, i: nat, j: nat)
    requires IsRanking(out, scores, limit) && i < j < |out| && out[i].score == out[j].score
    ensures Ordering.StrLess(out[i].id, out[j].id)
  {
    assert HitLess(out[i], out[j]);
  }

  // ----- The index -----

  predicate Eligible(e: Entry, kind: Kind, owner: string) {
    e.kind == kind && (owner == "" || e.owner == owner)
  }

  /** Every matching entry with the score it has for the query. */
  function Scores(entries: map<string, Entry>, query: Vec, kind: Kind, owner: string, sqrt: real -> real)
    : map<string, real>
  {
    map id | id in entries && Eligible(entries[id], kind, owner) && Best(query, Pool(entries[id]), sqrt).Some?
      :: Best(query, Pool(entries[id]), sqrt).value
  }

  function ClampLimit(limit: int): (r: nat)
    ensures 1 <= r <= MAX_LIMIT
  {
    if limit <= 0 then DEFAULT_LIMIT else if limit > MAX_LIMIT then MAX_LIMIT else limit
  }

  lemma LimitMeans(limit: int)
    ensures ClampLimit(limit) == if limit <= 0 then 10 else if limit > 50 then 50 else limit
  {
  }

  /** v is one of the vectors an entry is scored by: its paragraphs, or the whole when it has none. */
  predicate ScoredBy(e: Entry, v: Vec) {
    v in e.vecs || (e.vecs == [] && v == e.vec)
  }

  /** Scored are the entries of the kind, under the owner if one is given, that have a vector of the
      query's length; the score is the greatest cosine over those vectors. */
  lemma ScoresMean(entries: map<string, Entry>, query: Vec, kind: Kind, owner: string, sqrt: real -> real, id: string)
    ensures
      var scores := Scores(entries, query, kind, owner, sqrt);
      && (id in scores <==>
          id in entries && entries[id].kind == kind && (owner != "" ==> entries[id].owner == owner)
          && exists v :: ScoredBy(entries[id], v) && |v| == |query|)
      && (id in scores ==>
          && (exists v :: ScoredBy(entries[id], v) && |v| == |query| && scores[id] == Cos(query, v, sqrt))
          && forall v :: ScoredBy(entries[id], v) && |v| == |query| ==> Cos(query, v, sqrt) <= scores[id])
  {
    hide Cos;
    if id in entries {
      assert forall v :: v in Pool(entries[id]) <==> ScoredBy(entries[id], v);
    }
  }

  /** An entry that points the query's way scores 1, and no hit of the query scores more. */
  lemma AlignedScoresBest(entries: map<string, Entry>, query: Vec, kind: Kind, owner: string, sqrt: real -> real,
                          limit: nat, out: seq<Hit>, id: string, k: real)
    requires IsSqrt(sqrt) && NonZero(query) && k > 0.0 && limit > 0
    requires id in entries && entries[id].kind == kind && (owner != "" ==> entries[id].owner == owner)
    requires ScoredBy(entries[id], Scale(query, k))
    requires IsRanking(out, Scores(entries, query, kind, owner, sqrt), limit)
    ensures
      var scores := Scores(entries, query, kind, owner, sqrt);
      id in scores && scores[id] == 1.0 && out != [] && out[0].score == 1.0 && forall h :: h in out ==> h.score <= 1.0
  {
    hide Scores, Cos, IsRanking, Scale, ScoredBy, IsSqrt, NonZero;
    ScaleLength(query, k);
    CosOfMultiple(query, k, sqrt);
    ScoresBounded(entries, query, kind, owner, sqrt);
    ScoresMean(entries, query, kind, owner, sqrt, id);
    assert Cos(query, Scale(query, k), sqrt) == 1.0;
    TopScoreFirst(out, Scores(entries, query, kind, owner, sqrt), limit, id);
  }

  lemma ScoresBounded(entries: map<string, Entry>, query: Vec, kind: Kind, owner: string, sqrt: real -> real)
    requires IsSqrt(sqrt)
    ensures var scores := Scores(entries, query, kind, owner, sqrt); forall x :: x in scores ==> scores[x] <= 1.0
  {
    hide Scores, Cos, ScoredBy, IsSqrt;
    var scores := Scores(entries, query, kind, owner, sqrt);
    forall x | x in scores ensures scores[x] <= 1.0 {
      ScoresMean(entries, query, kind, owner, sqrt, x);
      var w :| ScoredBy(entries[x], w) && |w| == |query| && scores[x] == Cos(query, w, sqrt);
      CosBounded(query, w, sqrt);
    }
  }

  /** A greatest score of all stands first in a ranking. */
  lemma TopScoreFirst(out: seq<Hit>, scores: map<string, real>, limit: nat, id: string)
    requires IsRanking(out, scores, limit) && limit > 0
    requires id in scores && forall x :: x in scores ==> scores[x] <= scores[id]
    ensures out != [] && out[0].score == scores[id] && forall h :: h in out ==> h.score <= scores[id]
  {
    RankingMeans(out, scores, limit);
    hide IsRanking;
    assert id in scores.Keys && |scores| == |scores.Keys|;
    assert out[0] in out;
    if h :| h in out && h.id == id {
      var i :| 0 <= i < |out| && out[i] == h;
      assert i > 0 ==> out[0].score >= out[i].score;
    }
  }

  ghost predicate Descending(s: seq<Hit>) {
    forall i, j :: 0 <= i < j < |s| ==> s[i].score >= s[j].score
  }

  /** The tail already written and the hits still in the heap. */
  ghost predicate Draining(tail: seq<Hit>, items: seq<Hit>, all: multiset<Hit>) {
    && multiset(tail) + multiset(items) == all
    && Descending(tail)
    && (forall x, y :: x in items && y in tail ==> x.score >= y.score)
  }

  lemma DrainStep(tail: seq<Hit>, items: seq<Hit>, items': seq<Hit>, x: Hit, all: multiset<Hit>)
    requires Draining(tail, items, all) && x in items && (forall h :: h in items ==> x.score <= h.score)
    requires multiset(items') == multiset(items) - multiset{x}
    ensures Draining([x] + tail, items', all)
  {
    forall h | h in items' ensures h in items {
      assert h in multiset(items');
      assert h in multiset(items);
    }
    assert x in multiset(items);
    assert multiset([x] + tail) == multiset{x} + multiset(tail);
  }

  /** Empties the heap into a slice, least hit last. */
  method Drain(h: Heap) returns (out: array<Hit>)
    requires IsHeap(h.items)
    modifies h
    ensures fresh(out) && multiset(out[..]) == multiset(old(h.items)) && Descending(out[..])
  {
    hide IsHeap, Draining;
    out := new Hit[|h.items|];
    var n: nat := out.Length;
    ghost var all := multiset(h.items);
    DrainStart(h.items);
    assert out[n..] == [];
    while n > 0
      modifies h, out
      invariant n == |h.items| <= out.Length && IsHeap(h.items)
      invariant Draining(out[n..], h.items, all)
    {
      ghost var was, tail := h.items, out[n..];
      assert was[0] in was;
      var x := h.Pop();
      DrainStep(tail, was, h.items, x, all);
      PopShrinks(was, h.items, x);
      n := n - 1;
      out[n] := x;
      assert out[n..] == [x] + tail;
    }
    assert out[0..] == out[..];
    DrainEnd(out[..], h.items, all);
  }

  lemma DrainStart(items: seq<Hit>)
    ensures Draining([], items, multiset(items))
  {
  }

  lemma DrainEnd(tail: seq<Hit>, items: seq<Hit>, all: multiset<Hit>)
    requires Draining(tail, items, all) && items == []
    ensures multiset(tail) == all && Descending(tail)
  {
  }

  lemma PopShrinks(was: seq<Hit>, now: seq<Hit>, x: Hit)
    requires x in was && multiset(now) == multiset(was) - multiset{x}
    ensures |now| + 1 == |was|
  {
    assert x in multiset(was);
    assert |multiset(now)| == |multiset(was)| - 1;
  }

  /** One candidate against the k hits kept so far. */
  method Offer(h: Heap, k: nat, x: Hit, ghost seen: map<string, real>)
    requires IsHeap(h.items) && k > 0 && x.id !in seen
    requires TopOf(multiset(h.items), seen, k)
    modifies h
    ensures IsHeap(h.items) && TopOf(multiset(h.items), seen[x.id := x.score], k)
  {
    hide IsHeap, TopOf;
    SizeWithin(multiset(h.items), seen, k);
    if |h.items| < k {
      TopPush(multiset(h.items), seen, k, x);
      h.Push(x);
      return;
    }
    RootLeast(h.items);
    var least := h.items[0];
    assert forall g :: g in multiset(h.items) ==> g in h.items;
    if x.score > least.score {
      TopReplace(multiset(h.items), seen, k, x, least);
      h.ReplaceRoot(x);
    } else {
      TopSkip(multiset(h.items), seen, k, x, least);
    }
  }

  class Index {
    const sqrt: real -> real
    var entries: map<string, Entry>

    constructor (sqrt: real -> real)
      ensures entries == map[] && this.sqrt == sqrt
    {
      this.sqrt := sqrt;
      entries := map[];
    }

    method Search(query: Vec, kind: Kind, owner: string, limit: int) returns (out: seq<Hit>)
      ensures query == [] ==> out == []
      ensures query != [] ==> IsRanking(out, Scores(entries, query, kind, owner, sqrt), ClampLimit(limit))
    {
      hide TopOf, IsHeap, IsBest, Best, Pool, Eligible, Scores, Visited, ClampLimit;
      var k := ClampLimit(limit);
      if query == [] {
        return [];
      }
      ghost var all := Scores(entries, query, kind, owner, sqrt);
      ghost var seen: map<string, real> := map[];
      var h := new Heap();
      TopStart(k);
      var rest := entries.Keys;
      NoneVisited(entries, query, kind, owner, sqrt);
      while rest != {}
        invariant rest <= entries.Keys && IsHeap(h.items) && fresh(h)
        invariant Visited(seen, all, rest) && TopOf(multiset(h.items), seen, k)
        decreases |rest|
      {
        var id :| id in rest;
        ScoreOf(entries, id, query, kind, owner, sqrt);
        Visit(seen, all, rest, id);
        rest := rest - {id};
        var e := entries[id];
        if !Eligible(e, kind, owner) {
          continue;
        }
        var score, ok := MaxCosine(query, e, sqrt);
        if !ok {
          continue;
        }
        Offer(h, k, Hit(id, score), seen);
        seen := seen[id := score];
      }
      AllVisited(seen, all);
      var buf := Drain(h);
      out := Ordering.Sort(buf[..], HitLess);
      SortedRanking(buf[..], all, k);
    }
  }

  /** seen is the part of all whose ids are no longer waiting. */
  ghost predicate Visited(seen: map<string, real>, all: map<string, real>, rest: set<string>) {
    seen.Keys == all.Keys - rest && forall id :: id in seen ==> seen[id] == all[id]
  }

  lemma Visit(seen: map<string, real>, all: map<string, real>, rest: set<string>, id: string)
    requires Visited(seen, all, rest) && id in rest
    ensures id !in seen
    ensures id in all ==> Visited(seen[id := all[id]], all, rest - {id})
    ensures id !in all ==> Visited(seen, all, rest - {id})
  {
  }

  lemma NoneVisited(entries: map<string, Entry>, query: Vec, kind: Kind, owner: string, sqrt: real -> real)
    ensures Visited(map[], Scores(entries, query, kind, owner, sqrt), entries.Keys)
  {
    hide Best, Pool, Eligible;
  }

  lemma AllVisited(seen: map<string, real>, all: map<string, real>)
    requires Visited(seen, all, {})
    ensures seen == all
  {
  }

  lemma ScoreOf(entries: map<string, Entry>, id: string, query: Vec, kind: Kind, owner: string, sqrt: real -> real)
    requires id in entries
    ensures
      var all, best := Scores(entries, query, kind, owner, sqrt), Best(query, Pool(entries[id]), sqrt);
      if Eligible(entries[id], kind, owner) && best.Some? then id in all && all[id] == best.value else id !in all
  {
    hide Best, Pool, Eligible;
  }

  lemma TopStart(limit: nat)
    ensures TopOf(multiset([]), map[], limit)
  {
  }

  lemma SizeWithin(kept: multiset<Hit>, scores: map<string, real>, limit: nat)
    requires TopOf(kept, scores, limit)
    ensures |kept| <= limit
  {
  }

  lemma SortedRanking(s: seq<Hit>, scores: map<string, real>, limit: nat)
    requires TopOf(multiset(s), scores, limit)
    ensures IsRanking(Ordering.Sort(s, HitLess), scores, limit)
  {
    assert forall h :: h in s ==> h in multiset(s);
    OnceEachNoDup(s);
    HitOrder(s);
    Ordering.SortIsSorted(s, HitLess);
    Ordering.SortIsPermutation(s, HitLess);
  }
}
