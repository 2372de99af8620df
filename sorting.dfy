// Array.prototype.sort as the pages use it: the default comparison on
// strings (selected option names in the cart) and numeric comparators on a
// key (kitchen queue by date, catalogue by price or rating). The library
// sort is stable; it is modelled as a stable insertion sort, proved to return
// a sorted permutation of its input.
module Sorting {
  import opened Lists

  /** Lexicographic order on strings, character by character. */
  predicate StrLe(a: string, b: string)
    decreases |a|
  {
    |a| == 0 || (|b| > 0 && (a[0] < b[0] || (a[0] == b[0] && StrLe(a[1..], b[1..]))))
  }

  lemma {:induction false} StrLeTotal(a: string, b: string)
    ensures StrLe(a, b) || StrLe(b, a)
    decreases |a|
  {
    if |a| > 0 && |b| > 0 && a[0] == b[0] {
      StrLeTotal(a[1..], b[1..]);
    }
  }

  lemma {:induction false} StrLeAntisymmetric(a: string, b: string)
    requires StrLe(a, b) && StrLe(b, a)
    ensures a == b
    decreases |a|
  {
    if |a| > 0 {
      StrLeAntisymmetric(a[1..], b[1..]);
      assert a == [a[0]] + a[1..] && b == [b[0]] + b[1..];
    }
  }

  lemma {:induction false} StrLeTransitive(a: string, b: string, c: string)
    requires StrLe(a, b) && StrLe(b, c)
    ensures StrLe(a, c)
    decreases |a|
  {
    if |a| > 0 && a[0] == b[0] && b[0] == c[0] {
      StrLeTransitive(a[1..], b[1..], c[1..]);
    }
  }

  predicate SortedStrings(s: seq<string>)
  {
    forall i, j :: 0 <= i < j < |s| ==> StrLe(s[i], s[j])
  }

  function InsertString(x: string, s: seq<string>): seq<string>
  {
    if s == [] then [x]
    else if StrLe(x, s[0]) then [x] + s
    else [s[0]] + InsertString(x, s[1..])
  }

  /** `[...s].sort()` with the default comparison. */
  function SortStrings(s: seq<string>): seq<string>
  {
    if s == [] then [] else InsertString(s[0], SortStrings(s[1..]))
  }

  lemma {:induction false} InsertStringPerm(x: string, s: seq<string>)
    ensures multiset(InsertString(x, s)) == multiset(s) + multiset{x}
  {
    if s != [] && !StrLe(x, s[0]) {
      InsertStringPerm(x, s[1..]);
      assert s == [s[0]] + s[1..];
    }
  }

  lemma {:induction false} InsertStringSorted(x: string, s: seq<string>)
    requires SortedStrings(s)
    ensures SortedStrings(InsertString(x, s))
  {
    if s != [] {
      if StrLe(x, s[0]) {
        var r := [x] + s;
        forall i, j | 0 <= i < j < |r| ensures StrLe(r[i], r[j]) {
          if i == 0 && j > 1 { StrLeTransitive(x, s[0], s[j - 1]); }
        }
      } else {
        InsertStringSorted(x, s[1..]);
        InsertStringPerm(x, s[1..]);
        StrLeTotal(x, s[0]);
        var r := InsertString(x, s[1..]);
        forall k | 0 <= k < |r| ensures StrLe(s[0], r[k]) {
          assert r[k] in multiset(r);
          if r[k] != x {
            assert r[k] in multiset(s[1..]);
            var m :| 0 <= m < |s[1..]| && s[1..][m] == r[k];
            assert s[m + 1] == r[k];
          }
        }
        var t := [s[0]] + r;
        forall i, j | 0 <= i < j < |t| ensures StrLe(t[i], t[j]) {
          if i > 0 { assert t[i] == r[i - 1] && t[j] == r[j - 1]; }
        }
      }
    }
  }

  /** The default sort returns the input's strings in ascending order. */
  lemma {:induction false} SortStringsCorrect(s: seq<string>)
    ensures SortedStrings(SortStrings(s))
    ensures multiset(SortStrings(s)) == multiset(s)
  {
    if s != [] {
      SortStringsCorrect(s[1..]);
      InsertStringSorted(s[0], SortStrings(s[1..]));
      InsertStringPerm(s[0], SortStrings(s[1..]));
      assert s == [s[0]] + s[1..];
    }
  }

  lemma {:induction false} StrLeReflexive(a: string)
    ensures StrLe(a, a)
    decreases |a|
  {
    if |a| > 0 {
      StrLeReflexive(a[1..]);
    }
  }

  /** The head of an ascending list is below every element of the list. */
  lemma SortedHeadLeast(p: seq<string>, y: string)
    requires SortedStrings(p) && y in multiset(p)
    ensures StrLe(p[0], y)
  {
    var i :| 0 <= i < |p| && p[i] == y;
    if i == 0 {
      StrLeReflexive(y);
    }
  }

  lemma TailMultiset<T>(p: seq<T>)
    requires p != []
    ensures multiset(p[1..]) == multiset(p) - multiset{p[0]}
  {
    assert p == [p[0]] + p[1..];
  }

  /** Two ascending lists with the same elements are the same list. */
  lemma {:induction false} SortedUnique(p: seq<string>, q: seq<string>)
    requires SortedStrings(p) && SortedStrings(q)
    requires multiset(p) == multiset(q)
    ensures p == q
    decreases |p|
  {
    if p != [] {
      assert p[0] in multiset(q);
      SortedHeadLeast(q, p[0]);
      SortedHeadLeast(p, q[0]);
      StrLeAntisymmetric(p[0], q[0]);
      TailMultiset(p);
      TailMultiset(q);
      SortedUnique(p[1..], q[1..]);
      assert p == [p[0]] + p[1..] && q == [q[0]] + q[1..];
    }
  }

  /** Sorting forgets the original order: permutations sort to the same list. */
  lemma SortStringsCanonical(p: seq<string>, q: seq<string>)
    requires multiset(p) == multiset(q)
    ensures SortStrings(p) == SortStrings(q)
  {
    SortStringsCorrect(p);
    SortStringsCorrect(q);
    SortedUnique(SortStrings(p), SortStrings(q));
  }

  predicate SortedByKey<T>(s: seq<T>, key: T -> real)
  {
    forall i, j :: 0 <= i < j < |s| ==> key(s[i]) <= key(s[j])
  }

  function InsertByKey<T>(x: T, s: seq<T>, key: T -> real): seq<T>
  {
    if s == [] then [x]
    else if key(x) <= key(s[0]) then [x] + s
    else [s[0]] + InsertByKey(x, s[1..], key)
  }

  /**
   * `[...s].sort((a, b) => key(a) - key(b))`: ascending by key, elements
   * with equal keys in their original order (SortByKeyStable).
   */
  function SortByKey<T>(s: seq<T>, key: T -> real): seq<T>
  {
    if s == [] then [] else InsertByKey(s[0], SortByKey(s[1..], key), key)
  }

  lemma {:induction false} InsertByKeyPerm<T>(x: T, s: seq<T>, key: T -> real)
    ensures multiset(InsertByKey(x, s, key)) == multiset(s) + multiset{x}
  {
    if s != [] && key(s[0]) < key(x) {
      InsertByKeyPerm(x, s[1..], key);
      assert s == [s[0]] + s[1..];
    }
  }

  /** A bound below x's key and every key of s stays below every key after the insertion. */
  lemma {:induction false} InsertByKeyAbove<T>(x: T, s: seq<T>, key: T -> real, lo: real)
    requires lo <= key(x) && forall i :: 0 <= i < |s| ==> lo <= key(s[i])
    ensures forall k :: 0 <= k < |InsertByKey(x, s, key)| ==> lo <= key(InsertByKey(x, s, key)[k])
  {
    if s != [] && key(x) > key(s[0]) {
      assert forall i :: 0 <= i < |s[1..]| ==> s[1..][i] == s[i + 1];
      InsertByKeyAbove(x, s[1..], key, lo);
    }
  }

  lemma {:induction false} InsertByKeySorted<T>(x: T, s: seq<T>, key: T -> real)
    requires SortedByKey(s, key)
    ensures SortedByKey(InsertByKey(x, s, key), key)
  {
    if s != [] {
      if key(x) <= key(s[0]) {
        var r := [x] + s;
        forall i, j | 0 <= i < j < |r| ensures key(r[i]) <= key(r[j]) {
          if i == 0 && j > 1 { assert key(s[0]) <= key(s[j - 1]); }
        }
      } else {
        InsertByKeySorted(x, s[1..], key);
        assert forall i :: 0 <= i < |s[1..]| ==> s[1..][i] == s[i + 1];
        InsertByKeyAbove(x, s[1..], key, key(s[0]));
        var r := InsertByKey(x, s[1..], key);
        var t := [s[0]] + r;
        forall i, j | 0 <= i < j < |t| ensures key(t[i]) <= key(t[j]) {
          if i > 0 { assert t[i] == r[i - 1] && t[j] == r[j - 1]; }
        }
      }
    }
  }

  /** Sorting by a key returns a permutation of the input, ascending by that key. */
  lemma {:induction false} SortByKeyCorrect<T>(s: seq<T>, key: T -> real)
    ensures SortedByKey(SortByKey(s, key), key)
    ensures multiset(SortByKey(s, key)) == multiset(s)
  {
    if s != [] {
      SortByKeyCorrect(s[1..], key);
      InsertByKeySorted(s[0], SortByKey(s[1..], key), key);
      InsertByKeyPerm(s[0], SortByKey(s[1..], key), key);
      assert s == [s[0]] + s[1..];
    }
  }

  /** The elements whose key is v. */
  function KeyIs<T>(key: T -> real, v: real): T -> bool
  {
    (y: T) => key(y) == v
  }

  /**
   * Insertion places x after every element with a smaller key, so among
   * the elements with x's key it comes first, and the others keep their order.
   */
  lemma {:induction false} InsertByKeyKept<T>(x: T, s: seq<T>, key: T -> real, v: real)
    ensures Kept(InsertByKey(x, s, key), KeyIs(key, v)) == (if key(x) == v then [x] else []) + Kept(s, KeyIs(key, v))
  {
    var p := KeyIs(key, v);
    var head := if key(x) == v then [x] else [];
    if s == [] {
      assert Kept([x], p) == head + Kept([x][1..], p);
      assert [x][1..] == [];
    } else if key(x) <= key(s[0]) {
      assert ([x] + s)[1..] == s;
      assert Kept([x] + s, p) == head + Kept(s, p);
    } else {
      var t := InsertByKey(x, s[1..], key);
      InsertByKeyKept(x, s[1..], key, v);
      assert ([s[0]] + t)[1..] == t;
      var first := if key(s[0]) == v then [s[0]] else [];
      assert Kept([s[0]] + t, p) == first + (head + Kept(s[1..], p));
      assert Kept(s, p) == first + Kept(s[1..], p);
      if key(x) == v {
        assert first == [];
        assert first + (head + Kept(s[1..], p)) == head + (first + Kept(s[1..], p));
      } else {
        assert head == [];
      }
    }
  }

  lemma {:induction false} SortByKeyKept<T>(s: seq<T>, key: T -> real, v: real)
    ensures Kept(SortByKey(s, key), KeyIs(key, v)) == Kept(s, KeyIs(key, v))
  {
    if s != [] {
      SortByKeyKept(s[1..], key, v);
      InsertByKeyKept(s[0], SortByKey(s[1..], key), key, v);
    }
  }

  /** The sort is stable: elements with equal keys come out in the order they went in. */
  lemma SortByKeyStable<T>(s: seq<T>, key: T -> real, v: real)
    ensures Filter(SortByKey(s, key), KeyIs(key, v)) == Filter(s, KeyIs(key, v))
  {
    FilterIsKept(SortByKey(s, key), KeyIs(key, v));
    FilterIsKept(s, KeyIs(key, v));
    SortByKeyKept(s, key, v);
  }

  /** A list that is already in order comes back unchanged. */
  lemma {:induction false} SortByKeyOfSorted<T>(s: seq<T>, key: T -> real)
    requires SortedByKey(s, key)
    ensures SortByKey(s, key) == s
  {
    if s != [] {
      assert SortedByKey(s[1..], key);
      SortByKeyOfSorted(s[1..], key);
      if |s| > 1 {
        assert key(s[0]) <= key(s[1]);
      }
      assert s == [s[0]] + s[1..];
    }
  }
}
