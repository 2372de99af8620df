// The array helpers the store and the pages are built from: find,
// findIndex, filter, map-replace, reduce-sum and slice. Each is given a
// contract saying what it returns, so the operations built on them can be
// specified by what they keep, drop or replace.
module Lists {
  import opened Types

  /** `s.findIndex(p)` / `s.find(p)`: the first position whose element satisfies p. */
  function FindFirst<T>(s: seq<T>, p: T -> bool): (r: Option<nat>)
    ensures r.Some? ==> r.value < |s| && p(s[r.value])
    ensures r.Some? ==> forall j :: 0 <= j < r.value ==> !p(s[j])
    ensures r.None? <==> forall j :: 0 <= j < |s| ==> !p(s[j])
  {
    if s == [] then None
    else if p(s[0]) then Some(0)
    else
      match FindFirst(s[1..], p)
      case None => None
      case Some(k) => Some(k + 1)
  }

  /** Writing an element that still satisfies p over the first match keeps it the first match. */
  lemma FindFirstAfterWrite<T>(s: seq<T>, p: T -> bool, k: nat, y: T)
    requires FindFirst(s, p) == Some(k) && p(y)
    ensures FindFirst(s[k := y], p) == Some(k)
  {
    var t := s[k := y];
    assert forall j :: 0 <= j < k ==> t[j] == s[j] && !p(t[j]);
    assert p(t[k]);
  }

  /** `s.filter(p)`: the elements satisfying p, in their original order. */
  function Filter<T>(s: seq<T>, p: T -> bool): (r: seq<T>)
    ensures |r| <= |s|
    ensures forall i :: 0 <= i < |r| ==> r[i] in s && p(r[i])
    ensures forall i :: 0 <= i < |s| && p(s[i]) ==> s[i] in r
  {
    if s == [] then [] else (if p(s[0]) then [s[0]] else []) + Filter(s[1..], p)
  }

  lemma FilterAppend<T>(a: seq<T>, b: seq<T>, p: T -> bool)
    ensures Filter(a + b, p) == Filter(a, p) + Filter(b, p)
  {
    FilterIsKept(a + b, p);
    FilterIsKept(a, p);
    FilterIsKept(b, p);
    KeptAppend(a, b, p);
  }

  /** `s.filter(p)[0]` is `s.find(p)`. */
  lemma {:induction false} FilterHeadIsFind<T>(s: seq<T>, p: T -> bool)
    ensures Filter(s, p) == [] <==> FindFirst(s, p).None?
    ensures Filter(s, p) != [] ==> Filter(s, p)[0] == s[FindFirst(s, p).value]
  {
    if s != [] {
      FilterHeadIsFind(s[1..], p);
    }
  }

  /** Filtering with a predicate every element satisfies keeps the list as it is. */
  lemma {:induction false} FilterAll<T>(s: seq<T>, p: T -> bool)
    requires forall i :: 0 <= i < |s| ==> p(s[i])
    ensures Filter(s, p) == s
  {
    if s != [] {
      FilterAll(s[1..], p);
    }
  }

  /** Filtering with a predicate no element satisfies leaves nothing. */
  lemma {:induction false} FilterNone<T>(s: seq<T>, p: T -> bool)
    requires forall i :: 0 <= i < |s| ==> !p(s[i])
    ensures Filter(s, p) == []
  {
    if s != [] {
      FilterNone(s[1..], p);
    }
  }

  /** `s.map(x => p(x) ? y : x)`: every element satisfying p is replaced by y. */
  function ReplaceWhere<T>(s: seq<T>, p: T -> bool, y: T): seq<T>
  {
    seq(|s|, i requires 0 <= i < |s| => if p(s[i]) then y else s[i])
  }

  /** A filter leaves nothing exactly when no element satisfies the predicate. */
  lemma FilterEmptyIff<T>(s: seq<T>, p: T -> bool)
    ensures Filter(s, p) == [] <==> forall i :: 0 <= i < |s| ==> !p(s[i])
  {
    if forall i :: 0 <= i < |s| ==> !p(s[i]) {
      FilterNone(s, p);
    } else {
      var i :| 0 <= i < |s| && p(s[i]);
      assert s[i] in Filter(s, p);
    }
  }

  /** When nothing satisfies p, the map changes nothing. */
  lemma ReplaceWhereNone<T>(s: seq<T>, p: T -> bool, y: T)
    requires forall i :: 0 <= i < |s| ==> !p(s[i])
    ensures ReplaceWhere(s, p, y) == s
  {
  }

  /** `s.reduce((acc, x) => acc + f(x), 0)`. */
  function Sum<T>(s: seq<T>, f: T -> real): real
  {
    if s == [] then 0.0 else f(s[0]) + Sum(s[1..], f)
  }

  lemma {:induction false} SumAppend<T>(a: seq<T>, b: seq<T>, f: T -> real)
    ensures Sum(a + b, f) == Sum(a, f) + Sum(b, f)
  {
    if a != [] {
      SumAppend(a[1..], b, f);
      assert (a + b)[1..] == a[1..] + b;
    } else {
      assert a + b == b;
    }
  }

  /** A sum of terms that are each at least `lo` is at least |s| times `lo`. */
  lemma {:induction false} SumAtLeast<T>(s: seq<T>, f: T -> real, lo: real)
    requires forall i :: 0 <= i < |s| ==> f(s[i]) >= lo
    ensures Sum(s, f) >= |s| as real * lo
  {
    if s != [] {
      SumAtLeast(s[1..], f, lo);
    }
  }

  /** Integer-valued `reduce` sum. */
  function SumInt<T>(s: seq<T>, f: T -> int): int
  {
    if s == [] then 0 else f(s[0]) + SumInt(s[1..], f)
  }

  /** `s.slice(0, n)`. */
  function Take<T>(s: seq<T>, n: nat): (r: seq<T>)
    ensures |r| <= n && |r| <= |s|
    ensures r == s[..|r|]
    ensures |s| <= n ==> r == s
    ensures |s| > n ==> |r| == n
  {
    if |s| <= n then s else s[..n]
  }

  /** `s.filter(p).length`. */
  function Count<T>(s: seq<T>, p: T -> bool): nat
  {
    |Filter(s, p)|
  }

  /** A count over a list split in two is the sum of the two counts. */
  lemma CountAppend<T>(a: seq<T>, b: seq<T>, p: T -> bool)
    ensures Count(a + b, p) == Count(a, p) + Count(b, p)
  {
    FilterAppend(a, b, p);
  }

  /** Two predicates that split a list without overlap split its count too. */
  lemma {:induction false} CountPartition<T>(s: seq<T>, p: T -> bool, q: T -> bool, both: T -> bool)
    requires forall i :: 0 <= i < |s| ==> (both(s[i]) <==> p(s[i]) || q(s[i]))
    requires forall i :: 0 <= i < |s| ==> !(p(s[i]) && q(s[i]))
    ensures Count(s, both) == Count(s, p) + Count(s, q)
  {
    if s != [] {
      CountPartition(s[1..], p, q, both);
    }
  }

  // ---- toggles ----

  function Unequal(x: string): string -> bool
  {
    (y: string) => y != x
  }

  /**
   * The toggle of a chip or favourite: a present value is removed (every
   * copy), an absent one appended.
   */
  function Toggle(xs: seq<string>, x: string): (r: seq<string>)
    ensures x in r <==> x !in xs
    ensures x !in xs ==> r == xs + [x]
    ensures forall y :: y != x ==> (y in r <==> y in xs)
  {
    if x in xs then Filter(xs, Unequal(x)) else xs + [x]
  }

  /** Toggling an absent x twice gives the list back exactly. */
  lemma ToggleAbsentTwice(xs: seq<string>, x: string)
    requires x !in xs
    ensures Toggle(Toggle(xs, x), x) == xs
  {
    FilterAppend(xs, [x], Unequal(x));
    FilterAll(xs, Unequal(x));
  }

  /**
   * Filter's own recursion without its contract: a proof device for
   * equalities that take several unfoldings, where the quantified ensures
   * of Filter would only add terms for the solver to chase.
   */
  function Kept<T>(s: seq<T>, p: T -> bool): seq<T>
  {
    if s == [] then [] else (if p(s[0]) then [s[0]] else []) + Kept(s[1..], p)
  }

  lemma {:induction false} FilterIsKept<T>(s: seq<T>, p: T -> bool)
    ensures Filter(s, p) == Kept(s, p)
  {
    if s != [] {
      FilterIsKept(s[1..], p);
    }
  }

  lemma {:induction false} KeptAppend<T>(a: seq<T>, b: seq<T>, p: T -> bool)
    ensures Kept(a + b, p) == Kept(a, p) + Kept(b, p)
  {
    if a != [] {
      KeptAppend(a[1..], b, p);
      assert (a + b)[1..] == a[1..] + b;
    } else {
      assert a + b == b;
    }
  }

  lemma {:induction false} KeptAll<T>(s: seq<T>, p: T -> bool)
    requires forall i :: 0 <= i < |s| ==> p(s[i])
    ensures Kept(s, p) == s
  {
    if s != [] {
      forall i | 0 <= i < |s[1..]| ensures p(s[1..][i]) {
        assert s[1..][i] == s[i + 1];
      }
      KeptAll(s[1..], p);
    }
  }

  /** When only the element at k fails p, filtering removes just that position. */
  lemma {:induction false} KeptOutAt<T>(xs: seq<T>, k: nat, p: T -> bool)
    requires k < |xs| && !p(xs[k])
    requires forall i :: 0 <= i < |xs| && i != k ==> p(xs[i])
    ensures Kept(xs, p) == xs[..k] + xs[k + 1..]
  {
    var tail := xs[1..];
    if k == 0 {
      forall i | 0 <= i < |tail| ensures p(tail[i]) {
        assert tail[i] == xs[i + 1];
      }
      KeptAll(tail, p);
      assert xs[..0] + xs[1..] == tail;
    } else {
      forall i | 0 <= i < |tail| && i != k - 1 ensures p(tail[i]) {
        assert tail[i] == xs[i + 1];
      }
      KeptOutAt(tail, k - 1, p);
      assert Kept(xs, p) == [xs[0]] + Kept(tail, p);
      assert xs[..k] == [xs[0]] + tail[..k - 1];
      assert xs[k + 1..] == tail[k..];
    }
  }

  /** In a duplicate-free list, filtering out one element's value removes just that position. */
  lemma FilterOutUnique(xs: seq<string>, k: nat)
    requires k < |xs|
    requires forall i, j :: 0 <= i < j < |xs| ==> xs[i] != xs[j]
    ensures Filter(xs, Unequal(xs[k])) == xs[..k] + xs[k + 1..]
  {
    forall i | 0 <= i < |xs| && i != k ensures Unequal(xs[k])(xs[i]) {
      if i < k {
        assert xs[i] != xs[k];
      } else {
        assert xs[k] != xs[i];
      }
    }
    FilterIsKept(xs, Unequal(xs[k]));
    KeptOutAt(xs, k, Unequal(xs[k]));
  }

  /** Toggling a present x of a duplicate-free list twice gives back the same values, x now last. */
  lemma TogglePresentTwice(xs: seq<string>, x: string)
    requires x in xs
    requires forall i, j :: 0 <= i < j < |xs| ==> xs[i] != xs[j]
    ensures multiset(Toggle(Toggle(xs, x), x)) == multiset(xs)
  {
    var k :| 0 <= k < |xs| && xs[k] == x;
    var a, b := xs[..k], xs[k + 1..];
    assert xs == a + [x] + b;
    FilterOutUnique(xs, k);
    var once := Toggle(xs, x);
    assert once == a + b;
    assert x !in once;
    AppendBack(a, b, x);
  }

  lemma AppendBack(a: seq<string>, b: seq<string>, x: string)
    requires x !in a + b
    ensures multiset(Toggle(a + b, x)) == multiset(a + [x] + b)
  {
    assert Toggle(a + b, x) == a + b + [x];
    calc {
      multiset(a + b + [x]);
      multiset(a) + multiset(b) + multiset{x};
      multiset(a + [x] + b);
    }
  }

  /**
   * Toggling twice gives back the same members, whatever the duplicates;
   * a value that was present comes back last.
   */
  lemma ToggleTwiceMembers(xs: seq<string>, x: string)
    ensures forall y :: y in Toggle(Toggle(xs, x), x) <==> y in xs
    ensures x in xs ==> Toggle(Toggle(xs, x), x) == Filter(xs, Unequal(x)) + [x]
  {
  }
}
