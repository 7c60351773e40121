/** Go's string order, and the outcome of a library sort under a strict total order. */
module Ordering {
  /** Lexicographic order on strings, the `<` of Go. */
  predicate StrLess(a: string, b: string) {
    b != [] && (a == [] || a[0] < b[0] || (a[0] == b[0] && StrLess(a[1..], b[1..])))
  }

  lemma {:induction false} StrIrreflexive(a: string)
    ensures !StrLess(a, a)
  {
    if a != [] {
      StrIrreflexive(a[1..]);
    }
  }

  lemma {:induction false} StrTransitive(a: string, b: string, c: string)
    requires StrLess(a, b) && StrLess(b, c)
    ensures StrLess(a, c)
  {
    if a != [] && a[0] == b[0] == c[0] {
      StrTransitive(a[1..], b[1..], c[1..]);
    }
  }

  lemma {:induction false} StrTrichotomous(a: string, b: string)
    ensures a == b || StrLess(a, b) || StrLess(b, a)
  {
    if a != [] && b != [] && a[0] == b[0] {
      StrTrichotomous(a[1..], b[1..]);
      assert a == [a[0]] + a[1..] && b == [b[0]] + b[1..];
    }
  }

  // ----- Strict total orders on the elements of a list -----

  ghost predicate Transitive<T(!new)>(less: (T, T) -> bool, s: seq<T>) {
    forall x, y, z :: x in s && y in s && z in s && less(x, y) && less(y, z) ==> less(x, z)
  }

  ghost predicate Irreflexive<T(!new)>(less: (T, T) -> bool, s: seq<T>) {
    forall x :: x in s ==> !less(x, x)
  }

  ghost predicate Trichotomous<T(!new)>(less: (T, T) -> bool, s: seq<T>) {
    forall x, y :: x in s && y in s ==> x == y || less(x, y) || less(y, x)
  }

  ghost predicate StrictTotal<T(!new)>(less: (T, T) -> bool, s: seq<T>) {
    Transitive(less, s) && Irreflexive(less, s) && Trichotomous(less, s)
  }

  ghost predicate NoDup<T(!new)>(s: seq<T>) {
    forall i, j :: 0 <= i < j < |s| ==> s[i] != s[j]
  }

  ghost predicate Sorted<T(!new)>(s: seq<T>, less: (T, T) -> bool) {
    forall i, j :: 0 <= i < j < |s| ==> less(s[i], s[j])
  }

  lemma StrOrder(s: seq<string>)
    ensures StrictTotal(StrLess, s)
  {
    forall x: string, y: string, z: string | StrLess(x, y) && StrLess(y, z) ensures StrLess(x, z) {
      StrTransitive(x, y, z);
    }
    forall x: string ensures !StrLess(x, x) {
      StrIrreflexive(x);
    }
    forall x: string, y: string ensures x == y || StrLess(x, y) || StrLess(y, x) {
      StrTrichotomous(x, y);
    }
  }

  function Insert<T(!new)>(x: T, s: seq<T>, less: (T, T) -> bool): (r: seq<T>)
    ensures |r| == |s| + 1
    ensures forall y :: y in r <==> y == x || y in s
  {
    if s == [] || less(x, s[0]) then [x] + s else [s[0]] + Insert(x, s[1..], less)
  }

  /** What sort.Slice leaves behind; which algorithm it runs is not part of the model. */
  function Sort<T(!new)>(s: seq<T>, less: (T, T) -> bool): (r: seq<T>)
    ensures |r| == |s|
    ensures forall y :: y in r <==> y in s
  {
    if s == [] then [] else Insert(s[0], Sort(s[1..], less), less)
  }

  lemma Prepend<T(!new)>(x: T, s: seq<T>, less: (T, T) -> bool)
    requires Sorted(s, less) && forall y :: y in s ==> less(x, y)
    ensures Sorted([x] + s, less)
  {
    var t := [x] + s;
    forall i, j | 0 <= i < j < |t| ensures less(t[i], t[j]) {
      assert t[j] == s[j - 1];
      assert i > 0 ==> t[i] == s[i - 1];
    }
  }

  lemma Narrower<T(!new)>(less: (T, T) -> bool, s: seq<T>, t: seq<T>)
    requires StrictTotal(less, s) && forall y :: y in t ==> y in s
    ensures StrictTotal(less, t)
  {
  }

  lemma HeadBelow<T(!new)>(s: seq<T>, less: (T, T) -> bool)
    requires Sorted(s, less) && s != []
    ensures Sorted(s[1..], less) && forall y :: y in s[1..] ==> less(s[0], y)
  {
    forall y | y in s[1..] ensures less(s[0], y) {
      var k :| 0 <= k < |s[1..]| && s[1..][k] == y;
      assert s[k + 1] == y;
    }
  }

  lemma {:induction false} InsertSorted<T(!new)>(x: T, s: seq<T>, less: (T, T) -> bool)
    requires Sorted(s, less) && x !in s && StrictTotal(less, [x] + s)
    ensures Sorted(Insert(x, s, less), less)
  {
    if s == [] {
      return;
    }
    var all, head, rest := [x] + s, s[0], s[1..];
    assert all[0] == x && all[1] == head;
    assert forall y :: y in s ==> y in all;
    assert forall y :: y in rest ==> y in s;
    HeadBelow(s, less);
    hide Sorted;
    if less(x, head) {
      forall y | y in s ensures less(x, y) {
        assert y == head || y in rest by {
          assert s == [head] + rest;
        }
      }
      Prepend(x, s, less);
    } else {
      Narrower(less, all, [x] + rest);
      hide StrictTotal;
      InsertSorted(x, rest, less);
      HeadOf(less, all, x, head);
      Prepend(head, Insert(x, rest, less), less);
    }
  }

  lemma HeadOf<T(!new)>(less: (T, T) -> bool, s: seq<T>, x: T, y: T)
    requires StrictTotal(less, s) && x in s && y in s && x != y && !less(x, y)
    ensures less(y, x)
  {
  }

  /** A list without repeats comes out in strictly ascending order. */
  lemma {:induction false} SortIsSorted<T(!new)>(s: seq<T>, less: (T, T) -> bool)
    requires NoDup(s) && StrictTotal(less, s)
    ensures Sorted(Sort(s, less), less)
  {
    if s != [] {
      var rest := Sort(s[1..], less);
      assert forall y :: y in s[1..] ==> y in s;
      SortIsSorted(s[1..], less);
      assert forall y :: y in [s[0]] + rest ==> y in s;
      InsertSorted(s[0], rest, less);
    }
  }

  lemma {:induction false} InsertAddsOne<T(!new)>(x: T, s: seq<T>, less: (T, T) -> bool)
    ensures multiset(Insert(x, s, less)) == multiset(s) + multiset{x}
  {
    if s != [] && !less(x, s[0]) {
      InsertAddsOne(x, s[1..], less);
      assert s == [s[0]] + s[1..];
    }
  }

  lemma {:induction false} SortIsPermutation<T(!new)>(s: seq<T>, less: (T, T) -> bool)
    ensures multiset(Sort(s, less)) == multiset(s)
  {
    if s != [] {
      SortIsPermutation(s[1..], less);
      InsertAddsOne(s[0], Sort(s[1..], less), less);
      assert s == [s[0]] + s[1..];
    }
  }

  lemma SortedNoDup<T(!new)>(s: seq<T>, less: (T, T) -> bool)
    requires Irreflexive(less, s) && Sorted(s, less)
    ensures NoDup(s)
  {
    forall i, j | 0 <= i < j < |s| ensures s[i] != s[j] {
      assert s[i] in s && less(s[i], s[j]);
    }
  }

  lemma {:induction false} NoDupSize<T(!new)>(s: seq<T>)
    requires NoDup(s)
    ensures |set x | x in s| == |s|
  {
    if s != [] {
      var n := |s| - 1;
      NoDupSize(s[..n]);
      assert s == s[..n] + [s[n]];
      assert (set x | x in s) == (set x | x in s[..n]) + {s[n]};
    }
  }

  lemma HeadIsLeast<T(!new)>(s: seq<T>, less: (T, T) -> bool, y: T)
    requires Sorted(s, less) && y in s
    ensures y == s[0] || less(s[0], y)
  {
  }

  /** Only one order of the same elements is sorted, so a second sort reproduces the first. */
  lemma {:induction false} SortedUnique<T(!new)>(s: seq<T>, t: seq<T>, less: (T, T) -> bool)
    requires Sorted(s, less) && Sorted(t, less) && StrictTotal(less, s)
    requires |s| == |t|
    requires forall y :: y in s <==> y in t
    ensures s == t
  {
    if s != [] {
      HeadIsLeast(s, less, t[0]);
      HeadIsLeast(t, less, s[0]);
      assert s[0] == t[0];
      TailsAgree(s, t, less);
      assert forall y :: y in s[1..] ==> y in s;
      SortedUnique(s[1..], t[1..], less);
      assert s == [s[0]] + s[1..] && t == [t[0]] + t[1..];
    }
  }

  lemma TailsAgree<T(!new)>(s: seq<T>, t: seq<T>, less: (T, T) -> bool)
    requires Sorted(s, less) && Sorted(t, less) && StrictTotal(less, s)
    requires s != [] && t != [] && s[0] == t[0]
    requires forall y :: y in s <==> y in t
    ensures forall y :: y in s[1..] <==> y in t[1..]
  {
    var s0, s', t' := s[0], s[1..], t[1..];
    assert s == [s0] + s' && t == [s0] + t';
    assert s0 !in s' by {
      SortedNoDup(s, less);
    }
    assert s0 !in t' by {
      SortedNoDup(t, less);
    }
    forall y ensures y in s' <==> y in t' {
      assert y in s <==> y == s0 || y in s';
      assert y in t <==> y == s0 || y in t';
    }
  }

  /** Strings compare by their first difference, and a proper prefix comes first. */
  lemma {:induction false} StrLessMeans(a: string, b: string)
    ensures StrLess(a, b) <==> exists k :: Differ(a, b, k)
  {
    if a != "" && b != "" && a[0] == b[0] {
      StrLessMeans(a[1..], b[1..]);
      forall k ensures Differ(a[1..], b[1..], k) <==> k >= 0 && Differ(a, b, k + 1) {
        if 0 <= k < |a| && k < |b| - 1 {
          assert a[..k + 1] == [a[0]] + a[1..][..k] && b[..k + 1] == [b[0]] + b[1..][..k];
          assert a[..k + 1][1..] == a[1..][..k] && b[..k + 1][1..] == b[1..][..k];
        }
      }
      if k :| Differ(a, b, k) {
        assert k > 0 && Differ(a[1..], b[1..], k - 1);
      }
    } else if a != "" && b != "" {
      forall k | 0 < k <= |a| && k < |b| ensures a[..k] == b[..k] ==> a[0] == b[0] {
        assert a[..k][0] == a[0] && b[..k][0] == b[0];
      }
      assert a[..0] == b[..0] && (Differ(a, b, 0) <==> a[0] < b[0]);
    } else if b != "" {
      assert a[..0] == b[..0] && Differ(a, b, 0);
    }
  }

  /** a and b agree up to k, where a ends or has the smaller character. */
  predicate Differ(a: string, b: string, k: int) {
    0 <= k <= |a| && k < |b| && a[..k] == b[..k] && (k == |a| || a[k] < b[k])
  }
}
