/** Semantic ticket search: over-fetch from the index, rescore by feedback, filter, cut to the limit. */
module Search {
  import opened Common
  import opened Cosine
  import opened MinHeap
  import opened Reals
  import opened VecIndex
  import opened FeedbackScore
  import Board
  import Ordering
  import Text

  /** The feedback entry of a hit; summary hits have none. */
  function EntryKeyFor(kind: VecIndex.Kind, id: Id): Option<string> {
    match kind
    case TicketBody => Some("ticket:" + id)
    case TicketLearnings => Some("learning:" + id)
    case CommentBody => Some("comment:" + id)
    case _ => None
  }

  function CountsOf(records: map<string, Counts>, key: string): Counts {
    if key in records then records[key] else Counts(0, 0)
  }

  /** What rescoring looks at: the kind searched, the feedback records and the formula's settings. */
  datatype Tilt = Tilt(kind: VecIndex.Kind, records: map<string, Counts>, params: QualityParams)

  /** A hit without an entry key, and one that does not correlate, keeps its score. */
  function Adjust(t: Tilt, id: Id, score: real): real {
    var key := EntryKeyFor(t.kind, id);
    if key.None? || score <= 0.0 then score
    else score * Multiplier(t.params, CountsOf(t.records, key.value))
  }

  function AdjustHit(t: Tilt, h: Hit): Hit {
    Hit(h.id, Adjust(t, h.id, h.score))
  }

  function AdjustAll(t: Tilt, hits: seq<Hit>): (r: seq<Hit>)
    ensures |r| == |hits|
    ensures forall i :: 0 <= i < |hits| ==> r[i] == AdjustHit(t, hits[i])
  {
    seq(|hits|, i requires 0 <= i < |hits| => AdjustHit(t, hits[i]))
  }

  ghost predicate DistinctIds(hits: seq<Hit>) {
    forall i, j :: 0 <= i < j < |hits| ==> hits[i].id != hits[j].id
  }

  /** Rescoring is off without feedback, without hits, or when the mount disables it. */
  predicate Rescores(feedback: Option<map<string, Counts>>, params: QualityParams, hits: seq<Hit>) {
    params.enabled && feedback.Some? && hits != []
  }

  function Rescored(t: Tilt, hits: seq<Hit>): seq<Hit> {
    Ordering.Sort(AdjustAll(t, hits), HitLess)
  }

  /** The scores before rescoring, by id. */
  method RawScores(hits: seq<Hit>) returns (raw: map<Id, real>)
    ensures raw.Keys == set h | h in hits :: h.id
    ensures DistinctIds(hits) ==> forall h :: h in hits ==> raw[h.id] == h.score
  {
    raw := map[];
    for i := 0 to |hits|
      invariant raw.Keys == set h | h in hits[..i] :: h.id
      invariant DistinctIds(hits) ==> forall j :: 0 <= j < i ==> raw[hits[j].id] == hits[j].score
    {
      assert hits[..i + 1] == hits[..i] + [hits[i]];
      raw := raw[hits[i].id := hits[i].score];
    }
    assert hits[..|hits|] == hits;
  }

  method AdjustScores(t: Tilt, hits: seq<Hit>) returns (adjusted: seq<Hit>)
    ensures adjusted == AdjustAll(t, hits)
  {
    hide Multiplier;
    adjusted := hits;
    for i := 0 to |adjusted|
      invariant |adjusted| == |hits|
      invariant forall j :: 0 <= j < i ==> adjusted[j] == AdjustHit(t, hits[j])
      invariant forall j :: i <= j < |hits| ==> adjusted[j] == hits[j]
    {
      var h := adjusted[i];
      var key := EntryKeyFor(t.kind, h.id);
      if key.None? || h.score <= 0.0 {
        continue;
      }
      var c := CountsOf(t.records, key.value);
      adjusted := adjusted[i := h.(score := h.score * Multiplier(t.params, c))];
    }
    assert adjusted == AdjustAll(t, hits);
  }

  method ApplyQualityMultiplier(hits: seq<Hit>, kind: VecIndex.Kind, feedback: Option<map<string, Counts>>,
                                params: QualityParams)
    returns (adjusted: seq<Hit>, raw: map<Id, real>)
    ensures Rescores(feedback, params, hits) ==> adjusted == Rescored(Tilt(kind, feedback.value, params), hits)
    ensures !Rescores(feedback, params, hits) ==> adjusted == hits
    ensures raw.Keys == set h | h in hits :: h.id
    ensures DistinctIds(hits) ==> forall h :: h in hits ==> raw[h.id] == h.score
  {
    raw := RawScores(hits);
    if !params.enabled || feedback.None? || hits == [] {
      return hits, raw;
    }
    adjusted := AdjustScores(Tilt(kind, feedback.value, params), hits);
    adjusted := Ordering.Sort(adjusted, HitLess);
  }

  // ----- Rescoring is sound -----

  /** Rescoring never raises a score and never changes its sign. */
  lemma AdjustWithin(t: Tilt, id: Id, score: real)
    ensures Adjust(t, id, score) <= score
    ensures Adjust(t, id, score) > 0.0 <==> score > 0.0
  {
    var key := EntryKeyFor(t.kind, id);
    if key.Some? && score > 0.0 {
      var c := CountsOf(t.records, key.value);
      MultiplierWithin(t.params, c);
      ScaledWithin(score, Multiplier(t.params, c));
    }
  }

  lemma RescoredMembers(t: Tilt, hits: seq<Hit>)
    ensures forall h :: h in hits ==> AdjustHit(t, h) in Rescored(t, hits)
    ensures forall g :: g in Rescored(t, hits) ==> exists h :: h in hits && g == AdjustHit(t, h)
  {
    var a := AdjustAll(t, hits);
    forall h | h in hits ensures AdjustHit(t, h) in a {
      var i :| 0 <= i < |hits| && hits[i] == h;
      assert a[i] == AdjustHit(t, h);
    }
    forall g | g in a ensures exists h :: h in hits && g == AdjustHit(t, h) {
      var i :| 0 <= i < |a| && a[i] == g;
      assert hits[i] in hits;
    }
  }

  lemma RescoredSorted(t: Tilt, hits: seq<Hit>)
    requires DistinctIds(hits)
    ensures Ordering.Sorted(Rescored(t, hits), HitLess)
  {
    var a := AdjustAll(t, hits);
    HitOrder(a);
    Ordering.SortIsSorted(a, HitLess);
  }

  /** The same hits with adjusted scores, in result order. */
  lemma RescoredSound(t: Tilt, hits: seq<Hit>)
    requires DistinctIds(hits)
    ensures Ordering.Sorted(Rescored(t, hits), HitLess)
    ensures multiset(Rescored(t, hits)) == multiset(AdjustAll(t, hits))
  {
    RescoredSorted(t, hits);
    Ordering.SortIsPermutation(AdjustAll(t, hits), HitLess);
  }

  /** A hit that correlates with the query stays above every hit that does not. */
  lemma CorrelatingStaysAbove(t: Tilt, hits: seq<Hit>, g: Hit, h: Hit, i: nat, j: nat)
    requires DistinctIds(hits) && g.score > 0.0 >= h.score
    requires i < |Rescored(t, hits)| && Rescored(t, hits)[i] == AdjustHit(t, g)
    requires j < |Rescored(t, hits)| && Rescored(t, hits)[j] == AdjustHit(t, h)
    ensures i < j
  {
    var out := Rescored(t, hits);
    hide Rescored, Adjust;
    RescoredSorted(t, hits);
    AdjustWithin(t, g.id, g.score);
    AdjustWithin(t, h.id, h.score);
    assert j < i ==> HitLess(out[j], out[i]);
  }

  /** The feedback entries are filed under the kind's prefix. */
  lemma EntryKeyMeans(id: Id)
    ensures EntryKeyFor(TicketBody, id) == Some("ticket:" + id)
    ensures EntryKeyFor(TicketLearnings, id) == Some("learning:" + id)
    ensures EntryKeyFor(CommentBody, id) == Some("comment:" + id)
    ensures EntryKeyFor(ProjectSummary, id) == None
  {
  }

  /** A correlating ticket's score is multiplied by what its own ratings are worth, any other is kept. */
  lemma AdjustMeans(records: map<string, Counts>, params: QualityParams, id: Id, score: real)
    ensures score <= 0.0 ==> Adjust(Tilt(TicketBody, records, params), id, score) == score
    ensures score > 0.0 ==>
      var key := "ticket:" + id;
      Adjust(Tilt(TicketBody, records, params), id, score) ==
        score * Multiplier(params, if key in records then records[key] else Counts(0, 0))
  {
    hide Multiplier;
  }

  // ----- The post-filter -----

  datatype TicketFilter = TicketFilter(
    columns: set<Board.Column>, includeArchived: bool, includeIdeas: bool, onlyIdeas: bool)

  predicate Keeps(tickets: map<Id, Board.Ticket>, f: TicketFilter, id: Id) {
    && id in tickets
    && (!tickets[id].archived || f.includeArchived)
    && (if f.onlyIdeas then tickets[id].kind == Board.Idea else tickets[id].kind == Board.Work || f.includeIdeas)
    && (f.columns == {} || tickets[id].column in f.columns)
  }

  /** On the page are live tickets only; archived ones, ideas and, when columns are named, other columns
      stay off it unless asked for, and asking for ideas only keeps the work off. */
  lemma KeepsMeans(tickets: map<Id, Board.Ticket>, f: TicketFilter, id: Id)
    ensures Keeps(tickets, f, id) <==>
      && id in tickets
      && (tickets[id].archived ==> f.includeArchived)
      && (tickets[id].kind == Board.Idea ==> f.includeIdeas || f.onlyIdeas)
      && (tickets[id].kind == Board.Work ==> !f.onlyIdeas)
      && (f.columns != {} ==> tickets[id].column in f.columns)
  {
  }

  function Matching(hits: seq<Hit>, tickets: map<Id, Board.Ticket>, f: TicketFilter): (r: seq<Hit>)
    ensures forall h :: h in r <==> h in hits && Keeps(tickets, f, h.id)
  {
    if hits == [] then []
    else
      var n := |hits| - 1;
      Matching(hits[..n], tickets, f) + if Keeps(tickets, f, hits[n].id) then [hits[n]] else []
  }

  function Take<T>(s: seq<T>, k: nat): seq<T> {
    if |s| <= k then s else s[..k]
  }

  lemma {:induction false} MatchingGrows(hits: seq<Hit>, i: nat, tickets: map<Id, Board.Ticket>, f: TicketFilter)
    requires i <= |hits|
    ensures Matching(hits[..i], tickets, f) <= Matching(hits, tickets, f)
    decreases |hits|
  {
    if i == |hits| {
      assert hits[..i] == hits;
    } else {
      var n := |hits| - 1;
      assert hits[..n][..i] == hits[..i];
      MatchingGrows(hits[..n], i, tickets, f);
    }
  }

  /** Walks the ranked hits and stops at the limit. */
  method Build(hits: seq<Hit>, tickets: map<Id, Board.Ticket>, f: TicketFilter, limit: nat) returns (built: seq<Hit>)
    ensures built == Take(Matching(hits, tickets, f), limit)
  {
    built := [];
    for i := 0 to |hits|
      invariant built == Matching(hits[..i], tickets, f) && |built| <= limit
    {
      if |built| >= limit {
        MatchingGrows(hits, i, tickets, f);
        return;
      }
      assert hits[..i + 1][..i] == hits[..i];
      if Keeps(tickets, f, hits[i].id) {
        built := built + [hits[i]];
      }
    }
    assert hits[..|hits|] == hits;
  }

  // ----- The first k of a rescored over-fetch -----

  function IdSet(s: seq<Hit>): set<Id> {
    set h | h in s :: h.id
  }

  lemma {:induction false} DistinctCount(s: seq<Hit>)
    requires DistinctIds(s)
    ensures |IdSet(s)| == |s|
  {
    if s != [] {
      var n := |s| - 1;
      DistinctCount(s[..n]);
      assert s == s[..n] + [s[n]];
      assert IdSet(s) == IdSet(s[..n]) + {s[n].id};
    }
  }

  /** Every searched ticket the filter keeps, with the score rescoring gives it. */
  function Target(t: Tilt, all: map<Id, real>, tickets: map<Id, Board.Ticket>, f: TicketFilter): map<Id, real> {
    map id | id in all && Keeps(tickets, f, id) :: Adjust(t, id, all[id])
  }

  lemma {:induction false} MatchingSorted(s: seq<Hit>, tickets: map<Id, Board.Ticket>, f: TicketFilter)
    requires Ordering.Sorted(s, HitLess)
    ensures Ordering.Sorted(Matching(s, tickets, f), HitLess)
  {
    if s != [] {
      MatchingSorted(s[..|s| - 1], tickets, f);
    }
  }

  /** The filtered, rescored hits: exactly the fetched part of the target. */
  lemma MatchingIsTarget(t: Tilt, fetched: seq<Hit>, all: map<Id, real>, tickets: map<Id, Board.Ticket>,
                         f: TicketFilter)
    requires forall h :: h in fetched ==> h.id in all && all[h.id] == h.score
    ensures
      var target, m := Target(t, all, tickets, f), Matching(Rescored(t, fetched), tickets, f);
      && (forall h :: h in m ==> h.id in target && target[h.id] == h.score)
      && (forall h :: h in fetched && h.id in target ==> Hit(h.id, target[h.id]) in m)
  {
    hide Rescored, Adjust, Keeps;
    RescoredMembers(t, fetched);
  }

  /** Sorted hits that read their scores off a map are one per id. */
  lemma SortedDistinct(s: seq<Hit>, scores: map<Id, real>)
    requires Ordering.Sorted(s, HitLess) && forall h :: h in s ==> h.id in scores && scores[h.id] == h.score
    ensures DistinctIds(s)
    ensures forall h :: h in s ==> multiset(s)[h] == 1
  {
    forall i, j | 0 <= i < j < |s| ensures s[i].id != s[j].id {
      assert HitLess(s[i], s[j]);
      assert s[i] in s && s[j] in s;
      Ordering.StrIrreflexive(s[i].id);
    }
    forall h | h in s ensures multiset(s)[h] == 1 {
      var i :| 0 <= i < |s| && s[i] == h;
      assert s == s[..i] + [h] + s[i + 1..];
      assert h !in s[..i] && h !in s[i + 1..];
      assert multiset(s) == multiset(s[..i]) + multiset{h} + multiset(s[i + 1..]);
    }
  }

  /** The k-th adjusted score reaches the lowest score fetched. */
  predicate CutReached(out: seq<Hit>, fetched: seq<Hit>, k: nat) {
    |out| == k > 0 && fetched != [] && out[k - 1].score >= fetched[|fetched| - 1].score
  }

  /** Nothing outside the over-fetch can outrank a result list that reaches down to its lowest score. */
  lemma OmittedBelowCut(t: Tilt, fetched: seq<Hit>, all: map<Id, real>, cap: nat, id: Id)
    requires IsRanking(fetched, all, cap) && fetched != []
    requires id in all && id !in IdSet(fetched)
    ensures Adjust(t, id, all[id]) <= fetched[|fetched| - 1].score
  {
    hide Adjust;
    AdjustWithin(t, id, all[id]);
    RankingMeans(fetched, all, cap);
    var last := fetched[|fetched| - 1];
    assert last in fetched;
    assert forall g :: g in fetched ==> g.id in IdSet(fetched);
  }

  lemma SubsetSize<T>(a: set<T>, b: set<T>)
    requires a <= b
    ensures |a| <= |b|
  {
    assert b == a + (b - a);
  }

  /** m lists target hits in result order, and any it misses scores no higher than the k-th. */
  ghost predicate CoversTop(m: seq<Hit>, target: map<Id, real>, k: nat) {
    && Ordering.Sorted(m, HitLess)
    && (forall h :: h in m ==> h.id in target && target[h.id] == h.score)
    && (forall id :: id in target ==>
      Hit(id, target[id]) in m || (0 < k <= |m| && target[id] <= m[k - 1].score))
  }

  lemma CoversSize(m: seq<Hit>, target: map<Id, real>, k: nat)
    requires CoversTop(m, target, k)
    ensures |Take(m, k)| == if |target| < k then |target| else k
  {
    SortedDistinct(m, target);
    DistinctCount(m);
    SubsetSize(IdSet(m), target.Keys);
    if |m| < k {
      forall id | id in target ensures id in IdSet(m) {
        assert Hit(id, target[id]) in m;
      }
      assert IdSet(m) == target.Keys;
    }
    assert |target| == |target.Keys|;
  }

  lemma CoversKeeps(m: seq<Hit>, target: map<Id, real>, k: nat, id: Id, h: Hit)
    requires CoversTop(m, target, k) && id in target && h in Take(m, k)
    ensures Hit(id, target[id]) in Take(m, k) || target[id] <= h.score
  {
    var x := Hit(id, target[id]);
    var i :| 0 <= i < |Take(m, k)| && Take(m, k)[i] == h;
    assert m[i] == h;
    if x in m {
      var j :| 0 <= j < |m| && m[j] == x;
      assert j < k ==> Take(m, k)[j] == x;
      assert i < j ==> HitLess(m[i], m[j]);
    } else {
      assert i < k - 1 ==> HitLess(m[i], m[k - 1]);
    }
  }

  lemma CoversRanks(m: seq<Hit>, target: map<Id, real>, k: nat)
    requires CoversTop(m, target, k)
    ensures IsRanking(Take(m, k), target, k)
  {
    var out := Take(m, k);
    CoversSize(m, target, k);
    SortedDistinct(out, target);
    var kept := multiset(out);
    assert forall h :: h in kept <==> h in out;
    forall id, h | id in target && h in kept ensures Hit(id, target[id]) in kept || target[id] <= h.score {
      CoversKeeps(m, target, k, id, h);
    }
    assert |kept| < k ==> forall id :: id in target ==> Hit(id, target[id]) in kept;
  }

  /** When everything was fetched, or the k-th result reaches the lowest fetched score, the first k
      rescored and filtered hits are a true top k of the whole index by adjusted score. */
  lemma CutIsExact(t: Tilt, fetched: seq<Hit>, all: map<Id, real>, cap: nat,
                   tickets: map<Id, Board.Ticket>, f: TicketFilter, k: nat)
    requires IsRanking(fetched, all, cap) && cap > 0
    requires |all| <= cap || CutReached(Take(Matching(Rescored(t, fetched), tickets, f), k), fetched, k)
    ensures IsRanking(Take(Matching(Rescored(t, fetched), tickets, f), k), Target(t, all, tickets, f), k)
  {
    hide Matching, Rescored, Adjust, Keeps, IsRanking;
    var m, target := Matching(Rescored(t, fetched), tickets, f), Target(t, all, tickets, f);
    FetchedFacts(fetched, all, cap);
    RescoredSorted(t, fetched);
    MatchingSorted(Rescored(t, fetched), tickets, f);
    MatchingIsTarget(t, fetched, all, tickets, f);
    forall id | id in target
      ensures Hit(id, target[id]) in m || (0 < k <= |m| && target[id] <= m[k - 1].score)
    {
      if id in IdSet(fetched) {
        var h :| h in fetched && h.id == id;
        assert Hit(h.id, target[h.id]) in m;
      } else {
        OmittedBelowCut(t, fetched, all, cap, id);
      }
    }
    CoversRanks(m, target, k);
  }

  lemma FetchedFacts(fetched: seq<Hit>, all: map<Id, real>, cap: nat)
    requires IsRanking(fetched, all, cap) && cap > 0
    ensures DistinctIds(fetched)
    ensures forall h :: h in fetched ==> h.id in all && all[h.id] == h.score
    ensures |all| <= cap ==> forall id :: id in all ==> id in IdSet(fetched)
    ensures fetched == [] ==> all == map[]
  {
    RankingMeans(fetched, all, cap);
    DistinctCount(fetched);
    SubsetSize(IdSet(fetched), all.Keys);
    if |all| <= cap {
      SameSize(IdSet(fetched), all.Keys);
    }
  }

  lemma SameSize<T>(a: set<T>, b: set<T>)
    requires a <= b && |a| == |b|
    ensures a == b
  {
    assert b == a + (b - a);
  }

  // ----- Exactly when the page cannot go wrong -----

  function PageOf(t: Tilt, fetched: seq<Hit>, tickets: map<Id, Board.Ticket>, f: TicketFilter, k: nat): seq<Hit> {
    Take(Matching(Rescored(t, fetched), tickets, f), k)
  }

  /** No rating history takes a positive score lower than this part of it. */
  function LeastMultiplier(p: QualityParams): real {
    if p.enabled then Usable(p).minMultiplier else 1.0
  }

  function Floored(p: QualityParams, score: real): real {
    if score <= 0.0 then score else score * LeastMultiplier(p)
  }

  /** Judged by the raw scores alone: every matching ticket outside the over-fetch scores at most what
      the k-th matching ticket inside it cannot fall below. */
  ghost predicate PageSafe(p: QualityParams, fetched: seq<Hit>, all: map<Id, real>, tickets: map<Id, Board.Ticket>,
                           f: TicketFilter, k: nat)
  {
    var kept := Matching(fetched, tickets, f);
    forall id :: id in all && id !in IdSet(fetched) && Keeps(tickets, f, id) ==>
      0 < k <= |kept| && all[id] <= Floored(p, kept[k - 1].score)
  }

  lemma MultiplierAtLeast(p: QualityParams, c: Counts)
    ensures 0.0 <= LeastMultiplier(p) <= Multiplier(p, c)
  {
    MultiplierWithin(p, c);
  }

  /** Rescoring takes no hit below the floor of a hit that scores no higher. */
  lemma AdjustAbove(t: Tilt, id: Id, score: real, other: real)
    requires other <= score
    ensures Floored(t.params, other) <= Adjust(t, id, score)
  {
    hide Multiplier, LeastMultiplier;
    var key := EntryKeyFor(t.kind, id);
    MultiplierAtLeast(t.params, Counts(0, 0));
    MultiplierWithin(t.params, Counts(0, 0));
    if score > 0.0 {
      if other > 0.0 {
        var c := if key.Some? then CountsOf(t.records, key.value) else Counts(0, 0);
        MultiplierAtLeast(t.params, c);
        ScaledOrder(other, score, LeastMultiplier(t.params), Multiplier(t.params, c));
        ScaledOrder(other, score, LeastMultiplier(t.params), 1.0);
      } else {
        AdjustWithin(t, id, score);
      }
    }
  }

  /** Kept hits with adjusted scores are the adjusted kept hits. */
  lemma MatchingAdjusted(t: Tilt, fetched: seq<Hit>, tickets: map<Id, Board.Ticket>, f: TicketFilter)
    ensures
      var kept, m := Matching(fetched, tickets, f), Matching(Rescored(t, fetched), tickets, f);
      && (forall h :: h in kept ==> AdjustHit(t, h) in m)
      && (forall g :: g in m ==> exists h :: h in kept && g == AdjustHit(t, h))
  {
    hide Rescored, Adjust, Keeps;
    RescoredMembers(t, fetched);
    var m := Matching(Rescored(t, fetched), tickets, f);
    forall g | g in m ensures exists h :: h in Matching(fetched, tickets, f) && g == AdjustHit(t, h) {
      var h :| h in fetched && g == AdjustHit(t, h);
      assert h.id == g.id;
    }
  }

  lemma KeptSorted(fetched: seq<Hit>, all: map<Id, real>, tickets: map<Id, Board.Ticket>, f: TicketFilter)
    requires Ordering.Sorted(fetched, HitLess) && forall h :: h in fetched ==> h.id in all && all[h.id] == h.score
    ensures var kept := Matching(fetched, tickets, f); Ordering.Sorted(kept, HitLess) && DistinctIds(kept)
  {
    hide Matching, Keeps;
    MatchingSorted(fetched, tickets, f);
    KeptScores(fetched, all, tickets, f);
    SortedDistinct(Matching(fetched, tickets, f), all);
  }

  lemma RescoredKeptSorted(t: Tilt, fetched: seq<Hit>, all: map<Id, real>, tickets: map<Id, Board.Ticket>,
                           f: TicketFilter)
    requires DistinctIds(fetched) && forall h :: h in fetched ==> h.id in all && all[h.id] == h.score
    ensures var m := Matching(Rescored(t, fetched), tickets, f); Ordering.Sorted(m, HitLess) && DistinctIds(m)
  {
    hide Matching, Keeps, Rescored, Target;
    RescoredSorted(t, fetched);
    MatchingSorted(Rescored(t, fetched), tickets, f);
    KeptInTarget(t, fetched, all, tickets, f);
    SortedDistinct(Matching(Rescored(t, fetched), tickets, f), Target(t, all, tickets, f));
  }

  /** Rescoring neither adds nor loses kept hits. */
  lemma MatchingSize(t: Tilt, fetched: seq<Hit>, all: map<Id, real>, cap: nat, tickets: map<Id, Board.Ticket>,
                     f: TicketFilter)
    requires IsRanking(fetched, all, cap) && cap > 0
    ensures
      var kept, m := Matching(fetched, tickets, f), Matching(Rescored(t, fetched), tickets, f);
      && |m| == |kept| && IdSet(m) == IdSet(kept) && DistinctIds(kept) && DistinctIds(m)
      && Ordering.Sorted(kept, HitLess) && Ordering.Sorted(m, HitLess)
  {
    assert Ordering.Sorted(fetched, HitLess);
    hide Rescored, Adjust, Matching, Keeps, IsRanking, AdjustHit, IdSet, Ordering.Sorted, DistinctIds;
    var kept, m := Matching(fetched, tickets, f), Matching(Rescored(t, fetched), tickets, f);
    FetchedFacts(fetched, all, cap);
    KeptSorted(fetched, all, tickets, f);
    RescoredKeptSorted(t, fetched, all, tickets, f);
    MatchingAdjusted(t, fetched, tickets, f);
    SameIds(t, kept, m);
    DistinctCount(kept);
    DistinctCount(m);
  }

  lemma SameIds(t: Tilt, kept: seq<Hit>, m: seq<Hit>)
    requires forall h :: h in kept ==> AdjustHit(t, h) in m
    requires forall g :: g in m ==> exists h :: h in kept && g == AdjustHit(t, h)
    ensures IdSet(m) == IdSet(kept)
  {
    hide Adjust;
    forall id | id in IdSet(kept) ensures id in IdSet(m) {
      var h :| h in kept && h.id == id;
      assert AdjustHit(t, h).id == id;
    }
  }

  lemma KeptScores(fetched: seq<Hit>, all: map<Id, real>, tickets: map<Id, Board.Ticket>, f: TicketFilter)
    requires forall h :: h in fetched ==> h.id in all && all[h.id] == h.score
    ensures forall h :: h in Matching(fetched, tickets, f) ==> h.id in all && all[h.id] == h.score
  {
  }

  lemma KeptInTarget(t: Tilt, fetched: seq<Hit>, all: map<Id, real>, tickets: map<Id, Board.Ticket>, f: TicketFilter)
    requires forall h :: h in fetched ==> h.id in all && all[h.id] == h.score
    ensures
      var target := Target(t, all, tickets, f);
      forall h :: h in Matching(Rescored(t, fetched), tickets, f) ==> h.id in target && target[h.id] == h.score
  {
    hide Matching, Rescored, Adjust;
    MatchingIsTarget(t, fetched, all, tickets, f);
  }

  /** When at least k ids of a sorted list reach a score, so does its k-th hit. */
  lemma KthReaches(m: seq<Hit>, ids: set<Id>, k: nat, v: real)
    requires Ordering.Sorted(m, HitLess) && 0 < k <= |m| && |ids| >= k
    requires forall id :: id in ids ==> exists h :: h in m && h.id == id && h.score >= v
    ensures m[k - 1].score >= v
  {
    if m[k - 1].score < v {
      forall id | id in ids ensures id in IdSet(m[..k - 1]) {
        var h :| h in m && h.id == id && h.score >= v;
        var i :| 0 <= i < |m| && m[i] == h;
        assert i > k - 1 ==> HitLess(m[k - 1], m[i]);
        assert i < k - 1;
        assert m[..k - 1][i] == h;
      }
      SubsetSize(ids, IdSet(m[..k - 1]));
      IdsAtMost(m[..k - 1]);
    }
  }

  lemma {:induction false} IdsAtMost(s: seq<Hit>)
    ensures |IdSet(s)| <= |s|
  {
    if s != [] {
      var n := |s| - 1;
      IdsAtMost(s[..n]);
      assert s == s[..n] + [s[n]];
      assert IdSet(s) == IdSet(s[..n]) + {s[n].id};
    }
  }

  /** Each of the first k kept hits stays above the floor of the k-th. */
  lemma FirstStayAbove(t: Tilt, kept: seq<Hit>, m: seq<Hit>, k: nat, v: real)
    requires Ordering.Sorted(kept, HitLess) && 0 < k <= |kept| && v == Floored(t.params, kept[k - 1].score)
    requires forall h :: h in kept ==> AdjustHit(t, h) in m
    ensures forall id :: id in IdSet(kept[..k]) ==> exists h :: h in m && h.id == id && h.score >= v
  {
    hide Adjust, Floored;
    forall id | id in IdSet(kept[..k]) ensures exists h :: h in m && h.id == id && h.score >= v {
      var h :| h in kept[..k] && h.id == id;
      var i :| 0 <= i < k && kept[i] == h;
      assert i < k - 1 ==> HitLess(kept[i], kept[k - 1]);
      AdjustAbove(t, h.id, h.score, kept[k - 1].score);
      assert h in kept && AdjustHit(t, h) in m;
    }
  }

  /** Whatever the ratings, the k-th kept hit stays above the floor of the raw one. */
  lemma KthStaysAbove(t: Tilt, fetched: seq<Hit>, all: map<Id, real>, cap: nat, tickets: map<Id, Board.Ticket>,
                      f: TicketFilter, k: nat)
    requires IsRanking(fetched, all, cap) && cap > 0 && 0 < k <= |Matching(fetched, tickets, f)|
    ensures
      var kept, m := Matching(fetched, tickets, f), Matching(Rescored(t, fetched), tickets, f);
      k <= |m| && Floored(t.params, kept[k - 1].score) <= m[k - 1].score
  {
    hide Rescored, Adjust, Matching, IsRanking, Floored, AdjustHit, IdSet, Ordering.Sorted;
    var kept, m := Matching(fetched, tickets, f), Matching(Rescored(t, fetched), tickets, f);
    var v := Floored(t.params, kept[k - 1].score);
    MatchingSize(t, fetched, all, cap, tickets, f);
    MatchingAdjusted(t, fetched, tickets, f);
    FirstStayAbove(t, kept, m, k, v);
    DistinctCount(kept[..k]);
    KthReaches(m, IdSet(kept[..k]), k, v);
  }

  lemma SafeIsExact(t: Tilt, fetched: seq<Hit>, all: map<Id, real>, cap: nat, tickets: map<Id, Board.Ticket>,
                    f: TicketFilter, k: nat)
    requires IsRanking(fetched, all, cap) && cap > 0 && PageSafe(t.params, fetched, all, tickets, f, k)
    ensures IsRanking(PageOf(t, fetched, tickets, f, k), Target(t, all, tickets, f), k)
  {
    hide Matching, Rescored, Adjust, Keeps, IsRanking, Floored;
    var m, target := Matching(Rescored(t, fetched), tickets, f), Target(t, all, tickets, f);
    FetchedFacts(fetched, all, cap);
    MatchingSize(t, fetched, all, cap, tickets, f);
    MatchingIsTarget(t, fetched, all, tickets, f);
    forall id | id in target
      ensures Hit(id, target[id]) in m || (0 < k <= |m| && target[id] <= m[k - 1].score)
    {
      if id in IdSet(fetched) {
        var h :| h in fetched && h.id == id;
        assert Hit(h.id, target[h.id]) in m;
      } else {
        KthStaysAbove(t, fetched, all, cap, tickets, f, k);
        AdjustWithin(t, id, all[id]);
      }
    }
    CoversRanks(m, target, k);
  }

  // ----- And when it can -----

  lemma Exceeds(r: real) returns (n: nat)
    ensures n as real > r
  {
    n := if r < 0.0 then 0 else r.Floor + 1;
  }

  lemma SmallShare(x: real, y: real, eps: real)
    requires x > 0.0 && y > 0.0 && eps > 0.0 && y * eps > x
    ensures Share(x, y) < eps
  {
    var n := x + y;
    var p := x / n;
    assert p * n == x;
    if p >= eps {
      ProductOrder(eps, p, n);
      StrictProduct(0.0, x, eps);
      assert n * eps == x * eps + y * eps;
    }
  }

  lemma ShareOfTheRest(x: real, y: real)
    requires x > 0.0 && y > 0.0
    ensures Share(x, y) + Share(y, x) == 1.0
  {
    var n := x + y;
    var p, q := x / n, y / n;
    assert p * n == x && q * n == y;
    Distribute(p, q, n);
    if p + q < 1.0 {
      StrictProduct(p + q, 1.0, n);
    } else if p + q > 1.0 {
      StrictProduct(1.0, p + q, n);
    }
  }

  /** Enough dislikes bring the multiplier as near to the floor as wanted. */
  lemma ManyDislikes(p: QualityParams, eps: real) returns (n: nat)
    requires p.enabled && eps > 0.0
    ensures Multiplier(p, Counts(0, n)) < LeastMultiplier(p) + eps
  {
    var q := Usable(p);
    n := Exceeds(q.alpha / eps);
    var x, y := q.alpha, n as real + q.beta;
    BigEnough(x, y, n as real, eps);
    SmallShare(x, y, eps);
    hide Share, Mix;
    ShareWithin(x, y);
    MixBelow(q.minMultiplier, Share(x, y));
  }

  lemma BigEnough(x: real, y: real, n: real, eps: real)
    requires eps > 0.0 && n > x / eps && y > n
    ensures y * eps > x
  {
    var d := x / eps;
    assert d * eps == x;
    StrictProduct(d, y, eps);
  }

  lemma MixBelow(m: real, r: real)
    requires 0.0 <= m <= 1.0 && 0.0 < r
    ensures Mix(m, r) <= m + r
  {
    ProductOrder(1.0 - m, 1.0, r);
  }

  /** Enough likes bring it as near to 1 as wanted. */
  lemma ManyLikes(p: QualityParams, eps: real) returns (n: nat)
    requires p.enabled && eps > 0.0
    ensures Multiplier(p, Counts(n, 0)) > 1.0 - eps
  {
    var q := Usable(p);
    n := Exceeds(q.beta / eps);
    var x, y := n as real + q.alpha, q.beta;
    BigEnough(y, x, n as real, eps);
    SmallShare(y, x, eps);
    ShareOfTheRest(x, y);
    hide Share, Mix;
    ShareWithin(x, y);
    ShareWithin(y, x);
    MixAbove(q.minMultiplier, Share(x, y));
  }

  lemma MixAbove(m: real, r: real)
    requires 0.0 <= m <= 1.0 && 0.0 < r < 1.0
    ensures Mix(m, r) >= r
  {
    ProductOrder(0.0, 1.0 - r, m);
    assert Mix(m, r) == r + m * (1.0 - r);
  }

  /** Some hit of a page of k distinct ids is not among the first k - 1 of another list. */
  lemma SomeoneElse(page: seq<Hit>, top: seq<Hit>) returns (g: Hit)
    requires DistinctIds(page) && |top| < |page|
    ensures g in page && g.id !in IdSet(top)
  {
    DistinctCount(page);
    IdsAtMost(top);
    if IdSet(page) <= IdSet(top) {
      SubsetSize(IdSet(page), IdSet(top));
    }
    var id :| id in IdSet(page) && id !in IdSet(top);
    g :| g in page && g.id == id;
  }

  /** The first k of a rescored list are no ranking when they leave out a ticket that outscores every
      hit from the k-th raw one on: only k - 1 hits can be better. */
  lemma FirstKMiss(t: Tilt, kept: seq<Hit>, m: seq<Hit>, target: map<Id, real>, k: nat, id: Id)
    requires 0 < k <= |m| && DistinctIds(m[..k]) && k - 1 <= |kept|
    requires forall g :: g in m ==> exists h :: h in kept && g == AdjustHit(t, h)
    requires id in target && id !in IdSet(kept)
    requires forall h :: h in kept[k - 1..] ==> Adjust(t, h.id, h.score) < target[id]
    ensures !IsRanking(m[..k], target, k)
  {
    hide Adjust, IsRanking;
    var page := m[..k];
    assert forall e :: e in page ==> e in m;
    var g := SomeoneElse(page, kept[..k - 1]);
    var h :| h in kept && g == AdjustHit(t, h);
    LaterHit(kept, k - 1, h);
    forall e | e in page ensures e.id != id {
      var h :| h in kept && e == AdjustHit(t, h);
      assert h.id in IdSet(kept);
    }
    if IsRanking(page, target, k) {
      RankingMeans(page, target, k);
    }
  }

  /** The page of a full over-fetch leaves out an omitted ticket that outscores everything kept from the
      k-th hit on. */
  lemma PageMisses(t: Tilt, fetched: seq<Hit>, all: map<Id, real>, cap: nat, tickets: map<Id, Board.Ticket>,
                   f: TicketFilter, k: nat, id: Id)
    requires IsRanking(fetched, all, cap) && cap > 0 && 0 < k <= |Matching(fetched, tickets, f)|
    requires id in all && id !in IdSet(fetched) && Keeps(tickets, f, id)
    requires forall h :: h in Matching(fetched, tickets, f)[k - 1..] ==>
      Adjust(t, h.id, h.score) < Adjust(t, id, all[id])
    ensures !IsRanking(PageOf(t, fetched, tickets, f, k), Target(t, all, tickets, f), k)
  {
    hide Rescored, Adjust, Matching, IsRanking, Keeps;
    var kept, m := Matching(fetched, tickets, f), Matching(Rescored(t, fetched), tickets, f);
    MatchingSize(t, fetched, all, cap, tickets, f);
    MatchingAdjusted(t, fetched, tickets, f);
    assert PageOf(t, fetched, tickets, f, k) == m[..k];
    assert id !in IdSet(kept);
    FirstKMiss(t, kept, m, Target(t, all, tickets, f), k, id);
  }

  lemma LaterHit(s: seq<Hit>, i: nat, h: Hit)
    requires i <= |s| && h in s && h.id !in IdSet(s[..i])
    ensures h in s[i..]
  {
    assert s == s[..i] + s[i..];
  }

  /** A page short of k is wrong as soon as anything that matches was not fetched. */
  lemma ShortPageMisses(t: Tilt, fetched: seq<Hit>, all: map<Id, real>, cap: nat, tickets: map<Id, Board.Ticket>,
                        f: TicketFilter, k: nat, id: Id)
    requires IsRanking(fetched, all, cap) && cap > 0 && |Matching(fetched, tickets, f)| < k
    requires id in all && id !in IdSet(fetched) && Keeps(tickets, f, id)
    ensures !IsRanking(PageOf(t, fetched, tickets, f, k), Target(t, all, tickets, f), k)
  {
    hide Rescored, Adjust, Matching, IsRanking, Keeps;
    var kept, m := Matching(fetched, tickets, f), Matching(Rescored(t, fetched), tickets, f);
    MatchingSize(t, fetched, all, cap, tickets, f);
    var page, target := PageOf(t, fetched, tickets, f, k), Target(t, all, tickets, f);
    assert page == m && id !in IdSet(page) && id in target;
    assert |target| == |target.Keys|;
    if IsRanking(page, target, k) {
      RankingMeans(page, target, k);
      DistinctCount(page);
      SubsetSize(IdSet(page) + {id}, target.Keys);
    }
  }

  lemma PrefixSame(p: string, a: string, b: string)
    requires p + a == p + b
    ensures a == b
  {
    assert a == (p + a)[|p|..] && b == (p + b)[|p|..];
  }

  lemma KeyInjective(a: Id, b: Id)
    requires a != b
    ensures EntryKeyFor(TicketBody, a) != EntryKeyFor(TicketBody, b)
  {
    if "ticket:" + a == "ticket:" + b {
      PrefixSame("ticket:", a, b);
    }
  }

  function TicketKey(id: Id): string {
    "ticket:" + id
  }

  /** Feedback under which the given ids have dislikes only, and one other ticket likes only. */
  ghost function Against(ids: set<Id>, dislikes: nat, id: Id, likes: nat): map<string, Counts> {
    (map other | other in ids :: TicketKey(other) := Counts(0, dislikes))[TicketKey(id) := Counts(likes, 0)]
  }

  lemma AgainstCounts(ids: set<Id>, dislikes: nat, id: Id, likes: nat, other: Id)
    requires other in ids && other != id
    ensures CountsOf(Against(ids, dislikes, id, likes), TicketKey(other)) == Counts(0, dislikes)
    ensures CountsOf(Against(ids, dislikes, id, likes), TicketKey(id)) == Counts(likes, 0)
  {
    KeyInjective(other, id);
  }

  /** A score between the floor of one ticket and its raw score leaves room for both ratings. */
  lemma RoomBetween(x: real, s: real, least: real) returns (eps: real)
    requires 0.0 <= s * least < x <= s
    ensures eps > 0.0 && eps < 1.0 && s * (least + eps) < x * (1.0 - eps)
  {
    var gap, sum := x - s * least, x + s;
    eps := gap / (2.0 * sum);
    assert eps * (2.0 * sum) == gap;
    assert eps * sum == gap / 2.0;
    assert eps * sum == eps * x + eps * s;
    assert s * (least + eps) == s * least + eps * s;
    assert x * (1.0 - eps) == x - eps * x;
    if eps <= 0.0 {
      ProductOrder(eps, 0.0, sum);
    }
    if eps >= 1.0 {
      ProductOrder(1.0, eps, sum);
    }
  }

  /** Disliked far enough, a hit scoring at most s drops below a liked one at x. */
  lemma RatedApart(t: Tilt, h: Hit, id: Id, s: real, x: real, eps: real)
    requires t.kind == TicketBody && h.score <= s && 0.0 < x && 0.0 < s && 0.0 < eps < 1.0
    requires s * (LeastMultiplier(t.params) + eps) < x * (1.0 - eps)
    requires Multiplier(t.params, CountsOf(t.records, TicketKey(h.id))) < LeastMultiplier(t.params) + eps
    requires Multiplier(t.params, CountsOf(t.records, TicketKey(id))) > 1.0 - eps
    ensures Adjust(t, h.id, h.score) < Adjust(t, id, x)
  {
    hide Multiplier, LeastMultiplier, CountsOf;
    var low, high := CountsOf(t.records, TicketKey(h.id)), CountsOf(t.records, TicketKey(id));
    MultiplierAtLeast(t.params, low);
    ProductsApart(h.score, s, x, Multiplier(t.params, low), LeastMultiplier(t.params) + eps,
                  1.0 - eps, Multiplier(t.params, high));
  }

  lemma ProductsApart(score: real, s: real, x: real, low: real, high: real, low': real, high': real)
    requires score <= s && 0.0 < x && 0.0 <= low <= high && 0.0 < low' <= high' && s * high < x * low'
    ensures 0.0 < x * high' && (score > 0.0 ==> score * low < x * high')
  {
    StrictProduct(0.0, x, low');
    ScaledOrder(x, x, low', high');
    if score > 0.0 {
      ScaledOrder(score, s, low, high);
    }
  }

  /** Ratings that take every kept hit scoring at most s below an omitted ticket at x. */
  lemma RatingsBetween(p: QualityParams, kept: seq<Hit>, s: real, id: Id, x: real)
    returns (records: map<string, Counts>)
    requires id !in IdSet(kept) && Floored(p, s) < x <= s
    ensures forall h :: h in kept && h.score <= s ==>
      Adjust(Tilt(TicketBody, records, p), h.id, h.score) < Adjust(Tilt(TicketBody, records, p), id, x)
  {
    hide Adjust, Multiplier, Against, CountsOf;
    MultiplierAtLeast(p, Counts(0, 0));
    assert p.enabled && s > 0.0;
    ProductOrder(0.0, LeastMultiplier(p), s);
    var eps := RoomBetween(x, s, LeastMultiplier(p));
    var dislikes := ManyDislikes(p, eps);
    var likes := ManyLikes(p, eps);
    records := Against(IdSet(kept), dislikes, id, likes);
    hide LeastMultiplier;
    var t := Tilt(TicketBody, records, p);
    forall h | h in kept && h.score <= s ensures Adjust(t, h.id, h.score) < Adjust(t, id, x) {
      AgainstCounts(IdSet(kept), dislikes, id, likes, h.id);
      RatedApart(t, h, id, s, x, eps);
    }
  }

  lemma LaterScoreLess(s: seq<Hit>, i: nat)
    requires Ordering.Sorted(s, HitLess) && i < |s|
    ensures forall h :: h in s[i..] ==> h in s && h.score <= s[i].score
  {
    forall h | h in s[i..] ensures h in s && h.score <= s[i].score {
      var j :| i <= j < |s| && s[j] == h;
      assert i < j ==> HitLess(s[i], s[j]);
    }
  }

  /** An omitted ticket above the floor of the k-th kept one is lost under some ratings. */
  lemma RatingsAgainst(p: QualityParams, fetched: seq<Hit>, all: map<Id, real>, cap: nat,
                       tickets: map<Id, Board.Ticket>, f: TicketFilter, k: nat, id: Id)
    returns (records: map<string, Counts>)
    requires IsRanking(fetched, all, cap) && cap > 0 && 0 < k <= |Matching(fetched, tickets, f)|
    requires id in all && id !in IdSet(fetched) && Keeps(tickets, f, id)
    requires all[id] > Floored(p, Matching(fetched, tickets, f)[k - 1].score)
    ensures
      var t := Tilt(TicketBody, records, p);
      !IsRanking(PageOf(t, fetched, tickets, f, k), Target(t, all, tickets, f), k)
  {
    hide Rescored, Adjust, Matching, IsRanking, Keeps, PageOf, Floored;
    var kept := Matching(fetched, tickets, f);
    MatchingSize(Tilt(TicketBody, map[], p), fetched, all, cap, tickets, f);
    RankingMeans(fetched, all, cap);
    assert kept[k - 1] in kept;
    assert forall h :: h in kept ==> h in fetched && h.id in IdSet(fetched);
    records := RatingsBetween(p, kept, kept[k - 1].score, id, all[id]);
    LaterScoreLess(kept, k - 1);
    PageMisses(Tilt(TicketBody, records, p), fetched, all, cap, tickets, f, k, id);
  }

  ghost predicate ExactUnder(p: QualityParams, records: map<string, Counts>, fetched: seq<Hit>, all: map<Id, real>,
                             tickets: map<Id, Board.Ticket>, f: TicketFilter, k: nat)
  {
    var t := Tilt(TicketBody, records, p);
    IsRanking(PageOf(t, fetched, tickets, f, k), Target(t, all, tickets, f), k)
  }

  /** The page is a true top k under every rating history exactly when the raw scores make it safe. */
  lemma PageExactIff(p: QualityParams, fetched: seq<Hit>, all: map<Id, real>, cap: nat, tickets: map<Id, Board.Ticket>,
                     f: TicketFilter, k: nat)
    requires IsRanking(fetched, all, cap) && cap > 0 && k > 0
    ensures PageSafe(p, fetched, all, tickets, f, k) <==>
            forall records :: ExactUnder(p, records, fetched, all, tickets, f, k)
  {
    hide Matching, Keeps, IsRanking, Floored, PageOf, Target;
    if PageSafe(p, fetched, all, tickets, f, k) {
      forall records ensures ExactUnder(p, records, fetched, all, tickets, f, k) {
        SafeIsExact(Tilt(TicketBody, records, p), fetched, all, cap, tickets, f, k);
      }
    } else {
      var kept := Matching(fetched, tickets, f);
      var id :| id in all && id !in IdSet(fetched) && Keeps(tickets, f, id) &&
        !(k <= |kept| && all[id] <= Floored(p, kept[k - 1].score));
      if |kept| < k {
        ShortPageMisses(Tilt(TicketBody, map[], p), fetched, all, cap, tickets, f, k, id);
        assert !ExactUnder(p, map[], fetched, all, tickets, f, k);
      } else {
        var records := RatingsAgainst(p, fetched, all, cap, tickets, f, k, id);
        assert !ExactUnder(p, records, fetched, all, tickets, f, k);
      }
    }
  }

  /** What the search itself could look at: everything was fetched, or the floor of the k-th kept hit
      reaches the lowest score fetched. */
  lemma FetchedCheckIsEnough(p: QualityParams, fetched: seq<Hit>, all: map<Id, real>, cap: nat,
                             tickets: map<Id, Board.Ticket>, f: TicketFilter, k: nat)
    requires IsRanking(fetched, all, cap) && cap > 0
    requires
      var kept := Matching(fetched, tickets, f);
      |all| <= cap ||
      (0 < k <= |kept| && Floored(p, kept[k - 1].score) >= fetched[|fetched| - 1].score)
    ensures PageSafe(p, fetched, all, tickets, f, k)
  {
    hide Matching, Keeps, IsRanking, Floored;
    RankingMeans(fetched, all, cap);
    FetchedFacts(fetched, all, cap);
    forall id | id in all && id !in IdSet(fetched) ensures all[id] <= fetched[|fetched| - 1].score {
      assert fetched[|fetched| - 1] in fetched;
      assert forall g :: g in fetched ==> g.id in IdSet(fetched);
    }
  }

  // ----- A near miss -----

  const DEFAULT_PARAMS := QualityParams(2.0, 2.0, 0.5, true)

  const NEAR_SCORES: map<Id, real> := map["a" := 0.9, "b" := 0.85, "c" := 0.84]

  const NEAR_FETCHED := [Hit("a", 0.9), Hit("b", 0.85)]

  /** Three work tickets, of which only the third has been rated, with six likes. */
  const NEAR_TILT := Tilt(TicketBody, map["ticket:c" := Counts(6, 0)], DEFAULT_PARAMS)

  const EVERY_TICKET := TicketFilter({}, true, true, false)

  lemma NearFetched()
    ensures ClampLimit(RawLimit(1, EVERY_TICKET)) == 2 && IsRanking(NEAR_FETCHED, NEAR_SCORES, 2)
  {
    var a, b, scores := Hit("a", 0.9), Hit("b", 0.85), NEAR_SCORES;
    assert scores.Keys == {"a", "b", "c"} && |scores| == |scores.Keys|;
    var kept := multiset(NEAR_FETCHED);
    assert kept == multiset{a, b} && kept[a] == 1 && kept[b] == 1;
    assert HitLess(a, b);
    TwoKept(kept, scores, a, b);
  }

  lemma TwoKept(kept: multiset<Hit>, scores: map<Id, real>, a: Hit, b: Hit)
    requires kept == multiset{a, b} && a != b && |scores| >= 2
    requires a.id in scores && scores[a.id] == a.score && b.id in scores && scores[b.id] == b.score
    requires forall id :: id in scores ==>
      Hit(id, scores[id]) in kept || (scores[id] <= a.score && scores[id] <= b.score)
    ensures TopOf(kept, scores, 2)
  {
  }

  lemma NearMultipliers()
    ensures Multiplier(DEFAULT_PARAMS, Counts(0, 0)) == 0.75
    ensures Multiplier(DEFAULT_PARAMS, Counts(6, 0)) == 0.9
  {
    assert Share(2.0, 2.0) == 0.5;
    assert Share(8.0, 2.0) == 0.8;
  }

  lemma NearAdjusted()
    ensures Adjust(NEAR_TILT, "a", 0.9) == 0.675
    ensures Adjust(NEAR_TILT, "b", 0.85) == 0.6375
    ensures Adjust(NEAR_TILT, "c", 0.84) == 0.756
  {
    hide Multiplier;
    NearMultipliers();
    assert "ticket:" + "a" == "ticket:a" && "ticket:" + "b" == "ticket:b" && "ticket:" + "c" == "ticket:c";
    assert "ticket:a"[7] == 'a' && "ticket:b"[7] == 'b' && "ticket:c"[7] == 'c';
  }

  lemma NearRescored()
    ensures Rescored(NEAR_TILT, NEAR_FETCHED) == [Hit("a", 0.675), Hit("b", 0.6375)]
  {
    hide Adjust;
    NearAdjusted();
    var out := [Hit("a", 0.675), Hit("b", 0.6375)];
    assert AdjustAll(NEAR_TILT, NEAR_FETCHED) == out;
    assert out[1..] == [Hit("b", 0.6375)];
    assert Ordering.Sort(out[1..], HitLess) == out[1..];
  }

  lemma FirstKept(h: Hit, rest: seq<Hit>, tickets: map<Id, Board.Ticket>, f: TicketFilter)
    requires Keeps(tickets, f, h.id)
    ensures Take(Matching([h] + rest, tickets, f), 1) == [h]
  {
    hide Keeps;
    var hits := [h] + rest;
    assert hits[..1] == [h] && hits[..1][..0] == [];
    assert Matching(hits[..1], tickets, f) == [h];
    MatchingGrows(hits, 1, tickets, f);
  }

  lemma BetterOutside(page: seq<Hit>, target: map<Id, real>, k: nat, id: Id, h: Hit)
    requires id in target && h in page && h.score < target[id] && forall g :: g in page ==> g.id != id
    ensures !IsRanking(page, target, k)
  {
    if IsRanking(page, target, k) {
      RankingMeans(page, target, k);
    }
  }

  /** With a limit of 1 two hits are fetched, and the page shows a at 0.675 although c would score 0.756. */
  lemma NearMissIsLost(tickets: map<Id, Board.Ticket>)
    requires Keeps(tickets, EVERY_TICKET, "a") && Keeps(tickets, EVERY_TICKET, "b") && Keeps(tickets, EVERY_TICKET, "c")
    ensures
      var page, target := [Hit("a", 0.675)], Target(NEAR_TILT, NEAR_SCORES, tickets, EVERY_TICKET);
      && IsRanking(NEAR_FETCHED, NEAR_SCORES, ClampLimit(RawLimit(1, EVERY_TICKET)))
      && PageOf(NEAR_TILT, NEAR_FETCHED, tickets, EVERY_TICKET, 1) == page
      && "c" in target && target["c"] == 0.756
      && !IsRanking(page, target, 1)
  {
    hide Adjust, IsRanking, Keeps, RawLimit, Rescored, ClampLimit, Take, Matching;
    NearFetched();
    NearAdjusted();
    NearRescored();
    var a, b := Hit("a", 0.675), Hit("b", 0.6375);
    FirstKept(a, [b], tickets, EVERY_TICKET);
    assert [a] + [b] == [a, b];
    BetterOutside([a], Target(NEAR_TILT, NEAR_SCORES, tickets, EVERY_TICKET), 1, "c", a);
  }

  // ----- SearchTickets -----

  function ClampSearchLimit(limit: int): (k: nat)
    ensures 1 <= k <= SEARCH_MAX_LIMIT
  {
    if limit <= 0 then SEARCH_DEFAULT_LIMIT else if limit > SEARCH_MAX_LIMIT then SEARCH_MAX_LIMIT else limit
  }

  function ExpandedRawLimit(limit: nat): nat {
    if limit * 2 > SEARCH_MAX_LIMIT then SEARCH_MAX_LIMIT else limit * 2
  }

  /** A column filter asks for four times the limit; the index caps it at 50 all the same. */
  function RawLimit(limit: nat, f: TicketFilter): nat {
    var raw := ExpandedRawLimit(limit);
    if f.columns == {} then raw
    else
      var wide := if limit * 4 > SEARCH_MAX_LIMIT * 4 then SEARCH_MAX_LIMIT * 4 else limit * 4;
      if wide > raw then wide else raw
  }

  /** The limits in numbers: ten results by default and fifty at most; twice as many are fetched, four times
      as many when columns are named, and never more than fifty. */
  lemma LimitsMean(limit: int, f: TicketFilter)
    ensures ClampSearchLimit(limit) == if limit <= 0 then 10 else if limit > 50 then 50 else limit
    ensures
      var k := ClampSearchLimit(limit);
      var wanted := if f.columns == {} then 2 * k else 4 * k;
      ClampLimit(RawLimit(k, f)) == if wanted > 50 then 50 else wanted
  {
  }

  /** The over-fetch always leaves room for the results asked for. */
  lemma RawLimitCovers(limit: int, f: TicketFilter)
    ensures
      var k := ClampSearchLimit(limit);
      k <= ClampLimit(RawLimit(k, f)) <= MAX_LIMIT && (k <= 25 ==> 2 * k <= ClampLimit(RawLimit(k, f)))
  {
  }

  /** Rescoring that is switched off counts as a multiplier of 1. */
  function TiltOf(feedback: Option<map<string, Counts>>, params: QualityParams): Tilt {
    if params.enabled && feedback.Some? then Tilt(TicketBody, feedback.value, params)
    else Tilt(TicketBody, map[], params.(enabled := false))
  }

  lemma SwitchedOff(t: Tilt, hits: seq<Hit>)
    requires !t.params.enabled && Ordering.Sorted(hits, HitLess)
    ensures Rescored(t, hits) == hits
  {
    assert AdjustAll(t, hits) == hits by {
      assert forall h :: AdjustHit(t, h) == h;
    }
    HitOrder(hits);
    Ordering.SortedNoDup(hits, HitLess);
    Ordering.SortIsSorted(hits, HitLess);
    Ordering.SortedUnique(hits, Ordering.Sort(hits, HitLess), HitLess);
  }

  lemma NothingFetched(t: Tilt)
    ensures Rescored(t, []) == []
  {
  }

  /** What stands on a page: searched tickets that pass the filter, each with its raw score, multiplied by
      what its ratings are worth when there is feedback and the score is positive. */
  ghost predicate PageHolds(page: seq<Hit>, all: map<Id, real>, tickets: map<Id, Board.Ticket>, f: TicketFilter,
                            feedback: Option<map<string, Counts>>, params: QualityParams)
  {
    forall h :: h in page ==>
      && h.id in all && Keeps(tickets, f, h.id)
      && (params.enabled && feedback.Some? && all[h.id] > 0.0 ==>
            h.score == all[h.id] * Multiplier(params, CountsOf(feedback.value, "ticket:" + h.id)))
      && (!params.enabled || feedback.None? || all[h.id] <= 0.0 ==> h.score == all[h.id])
  }

  lemma PageDoesHold(fetched: seq<Hit>, all: map<Id, real>, cap: nat, tickets: map<Id, Board.Ticket>,
                     f: TicketFilter, k: nat, feedback: Option<map<string, Counts>>, params: QualityParams)
    requires IsRanking(fetched, all, cap)
    ensures PageHolds(PageOf(TiltOf(feedback, params), fetched, tickets, f, k), all, tickets, f, feedback, params)
  {
    var t := TiltOf(feedback, params);
    hide IsRanking, Multiplier, PageOf, TiltOf, Adjust, CountsOf, Keeps;
    PageScores(t, fetched, all, cap, tickets, f, k);
    forall id | id in all {
      TiltMeans(feedback, params, id, all[id]);
    }
  }

  lemma PageScores(t: Tilt, fetched: seq<Hit>, all: map<Id, real>, cap: nat, tickets: map<Id, Board.Ticket>,
                   f: TicketFilter, k: nat)
    requires IsRanking(fetched, all, cap)
    ensures forall h :: h in PageOf(t, fetched, tickets, f, k) ==>
      h.id in all && Keeps(tickets, f, h.id) && h.score == Adjust(t, h.id, all[h.id])
  {
    hide Matching, Rescored, Keeps, IsRanking, Adjust;
    RankingMeans(fetched, all, cap);
    MatchingIsTarget(t, fetched, all, tickets, f);
    var m := Matching(Rescored(t, fetched), tickets, f);
    assert forall h :: h in PageOf(t, fetched, tickets, f, k) ==> h in m;
  }

  lemma TiltMeans(feedback: Option<map<string, Counts>>, params: QualityParams, id: Id, score: real)
    ensures
      var adjusted := Adjust(TiltOf(feedback, params), id, score);
      && (params.enabled && feedback.Some? && score > 0.0 ==>
            adjusted == score * Multiplier(params, CountsOf(feedback.value, "ticket:" + id)))
      && (!params.enabled || feedback.None? || score <= 0.0 ==> adjusted == score)
  {
    hide CountsOf;
  }

  lemma ExactWhenSafe(t: Tilt, fetched: seq<Hit>, all: map<Id, real>, cap: nat, tickets: map<Id, Board.Ticket>,
                      f: TicketFilter, k: nat)
    requires IsRanking(fetched, all, cap) && cap > 0
    ensures
      PageSafe(t.params, fetched, all, tickets, f, k) || CutReached(PageOf(t, fetched, tickets, f, k), fetched, k) ==>
      IsRanking(PageOf(t, fetched, tickets, f, k), Target(t, all, tickets, f), k)
  {
    hide IsRanking, Matching, Rescored, Target, PageSafe, CutReached;
    var page := PageOf(t, fetched, tickets, f, k);
    if CutReached(page, fetched, k) {
      CutIsExact(t, fetched, all, cap, tickets, f, k);
    } else if PageSafe(t.params, fetched, all, tickets, f, k) {
      SafeIsExact(t, fetched, all, cap, tickets, f, k);
    }
  }

  lemma {:induction false} AllMatching(hits: seq<Hit>, tickets: map<Id, Board.Ticket>, f: TicketFilter)
    requires forall h :: h in hits ==> Keeps(tickets, f, h.id)
    ensures Matching(hits, tickets, f) == hits
  {
    if hits != [] {
      var n := |hits| - 1;
      assert Keeps(tickets, f, hits[n].id);
      hide Keeps;
      assert hits == hits[..n] + [hits[n]];
      AllMatching(hits[..n], tickets, f);
    }
  }

  /** When the filter drops nothing that was fetched, the over-fetch fills the page. */
  lemma PageFills(t: Tilt, fetched: seq<Hit>, all: map<Id, real>, cap: nat, tickets: map<Id, Board.Ticket>,
                  f: TicketFilter, k: nat)
    requires IsRanking(fetched, all, cap) && 0 < k <= cap
    ensures (forall h :: h in fetched ==> Keeps(tickets, f, h.id)) ==>
      |PageOf(t, fetched, tickets, f, k)| == if |all| < k then |all| else k
  {
    hide IsRanking, Matching, Rescored, Keeps;
    if forall h :: h in fetched ==> Keeps(tickets, f, h.id) {
      AllMatching(fetched, tickets, f);
      MatchingSize(t, fetched, all, cap, tickets, f);
      RankingMeans(fetched, all, cap);
    }
  }

  method SearchTickets(idx: Index, project: string, slug: string, text: string, vec: Vec,
                       tickets: map<Id, Board.Ticket>, feedback: Option<map<string, Counts>>,
                       params: QualityParams, f: TicketFilter, limit: int)
    returns (res: Result<seq<Hit>>, ghost fetched: seq<Hit>)
    ensures Text.Blank(text) || Text.Blank(project) <==> res.Err?
    ensures res.Err? ==> res.error == InvalidArgument
    ensures res.Ok? && vec == [] ==> res.value == []
    ensures
      var k, t := ClampSearchLimit(limit), TiltOf(feedback, params);
      var cap, all := ClampLimit(RawLimit(k, f)), Scores(idx.entries, vec, TicketBody, slug, idx.sqrt);
      res.Ok? && vec != [] ==>
        && IsRanking(fetched, all, cap)
        && res.value == Take(Matching(Rescored(t, fetched), tickets, f), k)
        && (PageSafe(t.params, fetched, all, tickets, f, k) || CutReached(res.value, fetched, k) ==>
            IsRanking(res.value, Target(t, all, tickets, f), k))
        && ((forall h :: h in fetched ==> Keeps(tickets, f, h.id)) ==> |res.value| == if |all| < k then |all| else k)
        && PageHolds(res.value, all, tickets, f, feedback, params)
  {
    hide IsRanking, Scores, Matching, Rescored, Target, Text.Blank, Take, CutReached, PageSafe, PageHolds, Keeps,
      RawLimit, ClampSearchLimit, ClampLimit;
    fetched := [];
    if Text.Blank(text) {
      return Err(InvalidArgument), [];
    }
    if Text.Blank(project) {
      return Err(InvalidArgument), [];
    }
    var k := ClampSearchLimit(limit);
    var hits := idx.Search(vec, TicketBody, slug, RawLimit(k, f));
    fetched := hits;
    ghost var t := TiltOf(feedback, params);
    ghost var all, cap := Scores(idx.entries, vec, TicketBody, slug, idx.sqrt), ClampLimit(RawLimit(k, f));
    var ranked, _ := ApplyQualityMultiplier(hits, TicketBody, feedback, params);
    assert vec != [] ==> ranked == Rescored(t, hits) by {
      if vec != [] {
        RankedIsRescored(hits, all, cap, feedback, params);
      }
    }
    var built := Build(ranked, tickets, f, k);
    res := Ok(built);
    if vec != [] {
      RawLimitCovers(limit, f);
      ExactWhenSafe(t, hits, all, cap, tickets, f, k);
      PageFills(t, hits, all, cap, tickets, f, k);
      PageDoesHold(hits, all, cap, tickets, f, k, feedback, params);
    }
    assert vec == [] ==> built == [] by {
      TakeNone(tickets, f, k);
    }
  }

  lemma TakeNone(tickets: map<Id, Board.Ticket>, f: TicketFilter, k: nat)
    ensures Take(Matching([], tickets, f), k) == []
  {
  }

  lemma RankedIsRescored(hits: seq<Hit>, all: map<Id, real>, cap: nat, feedback: Option<map<string, Counts>>,
                         params: QualityParams)
    requires IsRanking(hits, all, cap)
    ensures !Rescores(feedback, params, hits) ==> Rescored(TiltOf(feedback, params), hits) == hits
  {
    var t := TiltOf(feedback, params);
    if hits == [] {
      NothingFetched(t);
    } else if !t.params.enabled {
      SwitchedOff(t, hits);
    }
  }
}
