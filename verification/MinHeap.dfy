/** The bounded heap of vecindex: container/heap's sift loops over a slice of hits, least score at the root. */
module MinHeap {
  datatype Hit = Hit(id: string, score: real)

  function Parent(j: nat): (i: nat)
    requires j > 0
    ensures i < j
  {
    (j - 1) / 2
  }

  /** No hit among the first n scores below its parent. */
  ghost predicate HeapUpTo(s: seq<Hit>, n: nat)
    requires n <= |s|
  {
    forall j :: 0 < j < n ==> s[Parent(j)].score <= s[j].score
  }

  ghost predicate IsHeap(s: seq<Hit>) {
    HeapUpTo(s, |s|)
  }

  /** A heap except that the hit at j may score below its parent. */
  ghost predicate HeapButUp(s: seq<Hit>, j: nat)
    requires j < |s|
  {
    && (forall k :: 0 < k < |s| && k != j ==> s[Parent(k)].score <= s[k].score)
    && (forall k :: 0 < k < |s| && Parent(k) == j && j > 0 ==> s[Parent(j)].score <= s[k].score)
  }

  /** The first n are a heap except that the hit at i may score above its children. */
  ghost predicate HeapButDown(s: seq<Hit>, i: nat, n: nat)
    requires i <= n <= |s|
  {
    && (forall k :: 0 < k < n && Parent(k) != i ==> s[Parent(k)].score <= s[k].score)
    && (forall k :: 0 < k < n && Parent(k) == i && i > 0 ==> s[Parent(i)].score <= s[k].score)
  }

  lemma {:induction false} RootIsLeast(s: seq<Hit>, k: nat)
    requires IsHeap(s) && k < |s|
    ensures s[0].score <= s[k].score
  {
    if k > 0 {
      RootIsLeast(s, Parent(k));
    }
  }

  function Swapped(s: seq<Hit>, i: nat, j: nat): (t: seq<Hit>)
    requires i < |s| && j < |s|
    ensures |t| == |s|
  {
    s[i := s[j]][j := s[i]]
  }

  lemma SwapPermutes(s: seq<Hit>, i: nat, j: nat)
    requires i < |s| && j < |s|
    ensures multiset(Swapped(s, i, j)) == multiset(s)
  {
  }

  lemma SiftUpStep(s: seq<Hit>, j: nat)
    requires 0 < j < |s| && HeapButUp(s, j) && s[j].score < s[Parent(j)].score
    ensures HeapButUp(Swapped(s, Parent(j), j), Parent(j))
  {
    var i := Parent(j);
    var t := Swapped(s, i, j);
    forall k | 0 < k < |t| && k != i ensures t[Parent(k)].score <= t[k].score {
      assert k != j ==> s[Parent(k)].score <= s[k].score;
    }
    forall k | 0 < k < |t| && Parent(k) == i && i > 0 ensures t[Parent(i)].score <= t[k].score {
      assert s[Parent(i)].score <= s[i].score;
      assert k != j ==> s[i].score <= s[k].score;
    }
  }

  /** The lesser child of i below n. */
  ghost predicate LesserChild(s: seq<Hit>, i: nat, j: nat, n: nat)
    requires n <= |s|
  {
    0 < j < n && Parent(j) == i && forall k :: 0 < k < n && Parent(k) == i ==> s[j].score <= s[k].score
  }

  lemma SiftDownStep(s: seq<Hit>, i: nat, j: nat, n: nat)
    requires i < n <= |s| && HeapButDown(s, i, n) && LesserChild(s, i, j, n) && s[j].score < s[i].score
    ensures HeapButDown(Swapped(s, i, j), j, n)
  {
    var t := Swapped(s, i, j);
    forall k | 0 < k < n && Parent(k) != j ensures t[Parent(k)].score <= t[k].score {
      assert Parent(k) != i ==> s[Parent(k)].score <= s[k].score;
      assert k == i ==> s[Parent(i)].score <= s[j].score;
    }
    forall k | 0 < k < n && Parent(k) == j ensures t[Parent(j)].score <= t[k].score {
      assert s[Parent(k)].score <= s[k].score;
    }
  }

  lemma LesserChildChosen(s: seq<Hit>, i: nat, n: nat)
    requires n <= |s| && 2 * i + 1 < n
    ensures
      var j := 2 * i + 1;
      LesserChild(s, i, if j + 1 < n && s[j + 1].score < s[j].score then j + 1 else j, n)
  {
  }

  lemma SiftDownDone(s: seq<Hit>, i: nat, n: nat)
    requires i < n <= |s| && HeapButDown(s, i, n)
    requires n <= 2 * i + 1 || exists j: nat :: LesserChild(s, i, j, n) && s[i].score <= s[j].score
    ensures HeapUpTo(s, n)
  {
  }

  lemma SwapKeepsTail(s: seq<Hit>, i: nat, j: nat, n: nat)
    requires i < n <= |s| && j < n
    ensures Swapped(s, i, j)[n..] == s[n..]
  {
  }

  lemma LastToRoot(s: seq<Hit>, n: nat)
    requires IsHeap(s) && n + 1 == |s|
    ensures HeapButDown(Swapped(s, 0, n), 0, n) && Swapped(s, 0, n)[n] == s[0]
    ensures n == 0 ==> HeapUpTo(Swapped(s, 0, n), n)
  {
  }

  lemma DropLast(s: seq<Hit>, n: nat)
    requires n + 1 == |s| && HeapUpTo(s, n)
    ensures IsHeap(s[..n]) && multiset(s[..n]) == multiset(s) - multiset{s[n]}
  {
    assert s == s[..n] + [s[n]];
  }

  class Heap {
    var items: seq<Hit>

    constructor ()
      ensures items == [] && IsHeap(items)
    {
      items := [];
    }

    method Swap(i: nat, j: nat)
      requires i < |items| && j < |items|
      modifies this
      ensures items == Swapped(old(items), i, j)
    {
      items := items[i := items[j]][j := items[i]];
    }

    method Up(start: nat)
      requires start < |items| && HeapButUp(items, start)
      modifies this
      ensures IsHeap(items) && multiset(items) == multiset(old(items))
    {
      var j: nat := start;
      while true
        invariant j < |items| && HeapButUp(items, j)
        invariant multiset(items) == multiset(old(items))
        decreases j
      {
        if j == 0 || items[j].score >= items[Parent(j)].score {
          break;
        }
        var i := Parent(j);
        SiftUpStep(items, j);
        SwapPermutes(items, i, j);
        Swap(i, j);
        j := i;
      }
    }

    /** Reports whether the hit at start moved. */
    method Down(start: nat, n: nat) returns (moved: bool)
      requires start < n <= |items| && HeapButDown(items, start, n)
      modifies this
      ensures |items| == |old(items)| && items[n..] == old(items[n..])
      ensures HeapUpTo(items, n) && multiset(items) == multiset(old(items))
    {
      hide HeapUpTo, HeapButDown, LesserChild, Swapped, Parent;
      var i: nat := start;
      while true
        invariant i < n <= |items| == |old(items)| && HeapButDown(items, i, n)
        invariant multiset(items) == multiset(old(items))
        invariant items[n..] == old(items[n..])
        decreases n - i
      {
        var j := 2 * i + 1;
        if j >= n {
          SiftDownDone(items, i, n);
          break;
        }
        LesserChildChosen(items, i, n);
        if j + 1 < n && items[j + 1].score < items[j].score {
          j := j + 1;
        }
        if items[j].score >= items[i].score {
          SiftDownDone(items, i, n);
          break;
        }
        SiftDownStep(items, i, j, n);
        SwapPermutes(items, i, j);
        SwapKeepsTail(items, i, j, n);
        Swap(i, j);
        i := j;
      }
      moved := i > start;
    }

    method Push(x: Hit)
      requires IsHeap(items)
      modifies this
      ensures IsHeap(items) && multiset(items) == multiset(old(items)) + multiset{x}
    {
      items := items + [x];
      Up(|items| - 1);
    }

    /** Takes off a hit that no other scores below. */
    method Pop() returns (x: Hit)
      requires IsHeap(items) && items != []
      modifies this
      ensures x == old(items[0]) && forall h :: h in old(items) ==> x.score <= h.score
      ensures IsHeap(items) && multiset(items) == multiset(old(items)) - multiset{x}
    {
      hide IsHeap, HeapUpTo, HeapButDown, Swapped;
      RootLeast(items);
      var n: nat := |items| - 1;
      SwapPermutes(items, 0, n);
      LastToRoot(items, n);
      Swap(0, n);
      if n > 0 {
        var _ := Down(0, n);
      }
      x := items[n];
      DropLast(items, n);
      items := items[..n];
    }

    /** Restores the order after the root was overwritten. */
    method FixRoot()
      requires items != [] && HeapButDown(items, 0, |items|)
      modifies this
      ensures IsHeap(items) && multiset(items) == multiset(old(items))
    {
      var moved := Down(0, |items|);
      if !moved {
        Up(0);
      }
    }

    /** Overwrites the least hit and restores the order. */
    method ReplaceRoot(x: Hit)
      requires IsHeap(items) && items != []
      modifies this
      ensures IsHeap(items) && multiset(items) == multiset(old(items)) - multiset{old(items[0])} + multiset{x}
    {
      assert items == [items[0]] + items[1..];
      items := items[0 := x];
      assert items == [x] + items[1..];
      FixRoot();
    }
  }

  lemma RootLeast(s: seq<Hit>)
    requires IsHeap(s) && s != []
    ensures forall h :: h in s ==> s[0].score <= h.score
  {
    forall k | 0 <= k < |s| ensures s[0].score <= s[k].score {
      RootIsLeast(s, k);
    }
  }
}
