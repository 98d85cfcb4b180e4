// Sequence helpers: JavaScript's `filter`, counting, and the stable
// ascending and descending sorts that `Array.prototype.sort` with a
// `localeCompare` comparator performs on string keys.
module Seqs {
  import opened Wrappers

  function Filter<T>(s: seq<T>, f: T -> bool): (r: seq<T>)
    ensures |r| <= |s|
    ensures forall i :: 0 <= i < |r| ==> r[i] in s && f(r[i])
    ensures forall i :: 0 <= i < |s| && f(s[i]) ==> s[i] in r
  {
    if s == [] then [] else (if f(s[0]) then [s[0]] else []) + Filter(s[1..], f)
  }

  lemma FilterEmptyIff<T>(s: seq<T>, f: T -> bool)
    ensures Filter(s, f) == [] <==> forall i :: 0 <= i < |s| ==> !f(s[i])
  {
    if Filter(s, f) == [] {
      forall i | 0 <= i < |s| ensures !f(s[i]) {
        assert s[i] in s;
      }
    } else {
      var x := Filter(s, f)[0];
      assert x in s && f(x);
      var i :| 0 <= i < |s| && s[i] == x;
    }
  }

  lemma FilterAppend<T>(a: seq<T>, b: seq<T>, f: T -> bool)
    ensures Filter(a + b, f) == Filter(a, f) + Filter(b, f)
  {
    if a == [] {
      assert a + b == b;
    } else {
      assert (a + b)[1..] == a[1..] + b;
      FilterAppend(a[1..], b, f);
    }
  }

  /** The present values of a sequence of optional results, in order: a loop
      that pushes each non-null result. */
  function Somes<T>(os: seq<Option<T>>): (r: seq<T>)
    ensures |r| <= |os|
  {
    if os == [] then []
    else Somes(os[..|os| - 1]) + (if os[|os| - 1].Some? then [os[|os| - 1].value] else [])
  }

  lemma SomesSnoc<T>(os: seq<Option<T>>, i: nat)
    requires i < |os|
    ensures Somes(os[..i + 1]) == Somes(os[..i]) + (if os[i].Some? then [os[i].value] else [])
  {
    assert os[..i + 1][..i] == os[..i];
  }

  /** Every result comes from some position, and positions keep their order. */
  lemma {:induction false} SomesOrigin<T>(os: seq<Option<T>>, j: nat)
    requires j < |Somes(os)|
    ensures exists i :: 0 <= i < |os| && os[i] == Some(Somes(os)[j])
    decreases |os|
  {
    var init := os[..|os| - 1];
    if j < |Somes(init)| {
      SomesOrigin(init, j);
      var i :| 0 <= i < |init| && init[i] == Some(Somes(init)[j]);
      assert os[i] == init[i];
    } else {
      assert os[|os| - 1] == Some(Somes(os)[j]);
    }
  }

  /** With no absent result, every position gives exactly its own value. */
  lemma {:induction false} SomesAllPresent<T>(os: seq<Option<T>>)
    requires forall i :: 0 <= i < |os| ==> os[i].Some?
    ensures |Somes(os)| == |os|
    ensures forall i :: 0 <= i < |os| ==> Somes(os)[i] == os[i].value
    decreases |os|
  {
    if os != [] {
      var init := os[..|os| - 1];
      SomesAllPresent(init);
      forall i | 0 <= i < |os| ensures Somes(os)[i] == os[i].value {
        if i < |init| { assert init[i] == os[i]; }
      }
    }
  }

  /** Number of elements that satisfy `f`. */
  /** Filtering twice is filtering once by both tests. */
  lemma {:induction false} FilterFilter<T>(s: seq<T>, f: T -> bool, g: T -> bool, h: T -> bool)
    requires forall x :: h(x) == (f(x) && g(x))
    ensures Filter(Filter(s, f), g) == Filter(s, h)
  {
    if s != [] {
      FilterAppend(if f(s[0]) then [s[0]] else [], Filter(s[1..], f), g);
      FilterFilter(s[1..], f, g, h);
    }
  }

  function Count<T>(s: seq<T>, f: T -> bool): nat
  {
    |Filter(s, f)|
  }

  /** Lexicographic order on code points (how `localeCompare` orders the
      ISO-8601 timestamps the core sorts by). */
  predicate StrLe(a: string, b: string)
  {
    if a == [] then true
    else if b == [] then false
    else if a[0] != b[0] then a[0] < b[0]
    else StrLe(a[1..], b[1..])
  }

  lemma {:induction false} StrLeTotal(a: string, b: string)
    ensures StrLe(a, b) || StrLe(b, a)
  {
    if a != [] && b != [] && a[0] == b[0] {
      StrLeTotal(a[1..], b[1..]);
    }
  }

  /** Keys never increase from one element to the next. */
  predicate SortedDesc<T>(s: seq<T>, key: T -> string)
  {
    forall i :: 0 < i < |s| ==> StrLe(key(s[i]), key(s[i - 1]))
  }

  /** Insert `x` before the first element whose key is not greater than its own. */
  function InsertDesc<T>(x: T, s: seq<T>, key: T -> string): (r: seq<T>)
    ensures multiset(r) == multiset(s) + multiset{x}
    ensures |r| == |s| + 1
  {
    if s == [] || StrLe(key(s[0]), key(x)) then [x] + s
    else
      assert s == [s[0]] + s[1..];
      [s[0]] + InsertDesc(x, s[1..], key)
  }

  lemma {:induction false} InsertDescSorted<T>(x: T, s: seq<T>, key: T -> string)
    requires SortedDesc(s, key)
    ensures SortedDesc(InsertDesc(x, s, key), key)
  {
    if s == [] || StrLe(key(s[0]), key(x)) {
    } else {
      var t := s[1..];
      assert SortedDesc(t, key) by {
        forall i | 0 < i < |t| ensures StrLe(key(t[i]), key(t[i - 1])) {
          assert t[i] == s[i + 1] && t[i - 1] == s[i];
        }
      }
      InsertDescSorted(x, t, key);
      var r := InsertDesc(x, s, key);
      var rt := InsertDesc(x, t, key);
      assert r == [s[0]] + rt;
      StrLeTotal(key(s[0]), key(x));
      if t != [] && !StrLe(key(t[0]), key(x)) {
        assert rt[0] == t[0] == s[1];
      } else {
        assert rt[0] == x;
      }
      assert StrLe(key(rt[0]), key(s[0]));
      forall i | 0 < i < |r| ensures StrLe(key(r[i]), key(r[i - 1])) {
        if i > 1 {
          assert r[i] == rt[i - 1] && r[i - 1] == rt[i - 2];
        }
      }
    }
  }

  /** Stable insertion sort by descending key. */
  function SortDesc<T>(s: seq<T>, key: T -> string): (r: seq<T>)
    ensures SortedDesc(r, key)
    ensures multiset(r) == multiset(s)
    ensures |r| == |s|
  {
    if s == [] then []
    else
      var t := SortDesc(s[1..], key);
      InsertDescSorted(s[0], t, key);
      assert multiset(s) == multiset{s[0]} + multiset(s[1..]) by {
        assert s == [s[0]] + s[1..];
      }
      InsertDesc(s[0], t, key)
  }

  lemma SortDescMembers<T>(s: seq<T>, key: T -> string, x: T)
    ensures x in SortDesc(s, key) <==> x in s
  {
    assert x in s <==> x in multiset(s);
    assert x in SortDesc(s, key) <==> x in multiset(SortDesc(s, key));
  }

  /** Keys never decrease from one element to the next. */
  predicate SortedAsc<T>(s: seq<T>, key: T -> string)
  {
    forall i :: 0 < i < |s| ==> StrLe(key(s[i - 1]), key(s[i]))
  }

  /** Insert `x` before the first element whose key is not smaller than its
      own, so `x` goes ahead of the elements whose key equals its own. */
  function InsertAsc<T>(x: T, s: seq<T>, key: T -> string): (r: seq<T>)
    ensures multiset(r) == multiset(s) + multiset{x}
    ensures |r| == |s| + 1
  {
    if s == [] || StrLe(key(x), key(s[0])) then [x] + s
    else
      assert s == [s[0]] + s[1..];
      [s[0]] + InsertAsc(x, s[1..], key)
  }

  lemma {:induction false} InsertAscSorted<T>(x: T, s: seq<T>, key: T -> string)
    requires SortedAsc(s, key)
    ensures SortedAsc(InsertAsc(x, s, key), key)
  {
    if s == [] || StrLe(key(x), key(s[0])) {
    } else {
      var t := s[1..];
      assert SortedAsc(t, key) by {
        forall i | 0 < i < |t| ensures StrLe(key(t[i - 1]), key(t[i])) {
          assert t[i] == s[i + 1] && t[i - 1] == s[i];
        }
      }
      InsertAscSorted(x, t, key);
      var r := InsertAsc(x, s, key);
      var rt := InsertAsc(x, t, key);
      assert r == [s[0]] + rt;
      StrLeTotal(key(s[0]), key(x));
      if t != [] && !StrLe(key(x), key(t[0])) {
        assert rt[0] == t[0] == s[1];
      } else {
        assert rt[0] == x;
      }
      assert StrLe(key(s[0]), key(rt[0]));
      forall i | 0 < i < |r| ensures StrLe(key(r[i - 1]), key(r[i])) {
        if i > 1 {
          assert r[i] == rt[i - 1] && r[i - 1] == rt[i - 2];
        }
      }
    }
  }

  /** Stable insertion sort by ascending key (`a.localeCompare(b)`). */
  function SortAsc<T>(s: seq<T>, key: T -> string): (r: seq<T>)
    ensures SortedAsc(r, key)
    ensures multiset(r) == multiset(s)
    ensures |r| == |s|
  {
    if s == [] then []
    else
      var t := SortAsc(s[1..], key);
      InsertAscSorted(s[0], t, key);
      assert multiset(s) == multiset{s[0]} + multiset(s[1..]) by {
        assert s == [s[0]] + s[1..];
      }
      InsertAsc(s[0], t, key)
  }

  /** The elements whose key is `k`, in their order in `s`: what a stable
      sort must leave unchanged. */
  function WithKey<T>(s: seq<T>, key: T -> string, k: string): seq<T>
  {
    if s == [] then [] else (if key(s[0]) == k then [s[0]] else []) + WithKey(s[1..], key, k)
  }

  lemma {:induction false} StrLeRefl(a: string)
    ensures StrLe(a, a)
  {
    if a != [] {
      StrLeRefl(a[1..]);
    }
  }

  /** Inserting `x` puts it ahead of every element with the same key. */
  lemma {:induction false} InsertAscWithKey<T>(x: T, s: seq<T>, key: T -> string, k: string)
    ensures WithKey(InsertAsc(x, s, key), key, k)
            == (if key(x) == k then [x] else []) + WithKey(s, key, k)
  {
    var r := InsertAsc(x, s, key);
    if s == [] || StrLe(key(x), key(s[0])) {
      assert r[1..] == s;
    } else {
      StrLeRefl(key(x));
      assert key(s[0]) != key(x);
      assert r[1..] == InsertAsc(x, s[1..], key);
      InsertAscWithKey(x, s[1..], key, k);
    }
  }

  /** `SortAsc` is stable: elements with equal keys keep their order. */
  lemma {:induction false} SortAscStable<T>(s: seq<T>, key: T -> string, k: string)
    ensures WithKey(SortAsc(s, key), key, k) == WithKey(s, key, k)
  {
    if s != [] {
      SortAscStable(s[1..], key, k);
      InsertAscWithKey(s[0], SortAsc(s[1..], key), key, k);
    }
  }

  /** Inserting `x` puts it ahead of every element with the same key. */
  lemma {:induction false} InsertDescWithKey<T>(x: T, s: seq<T>, key: T -> string, k: string)
    ensures WithKey(InsertDesc(x, s, key), key, k)
            == (if key(x) == k then [x] else []) + WithKey(s, key, k)
  {
    var r := InsertDesc(x, s, key);
    if s == [] || StrLe(key(s[0]), key(x)) {
      assert r[1..] == s;
    } else {
      StrLeRefl(key(x));
      assert key(s[0]) != key(x);
      assert r[1..] == InsertDesc(x, s[1..], key);
      InsertDescWithKey(x, s[1..], key, k);
    }
  }

  /** `SortDesc` is stable: elements with equal keys keep their order. */
  lemma {:induction false} SortDescStable<T>(s: seq<T>, key: T -> string, k: string)
    ensures WithKey(SortDesc(s, key), key, k) == WithKey(s, key, k)
  {
    if s != [] {
      SortDescStable(s[1..], key, k);
      InsertDescWithKey(s[0], SortDesc(s[1..], key), key, k);
    }
  }
}
