/**
  Sequence helpers standing for Python's sum() over a generator, len() of a
  filtered queryset, a lookup by primary key, list.reverse(),
  sorted(..., reverse=True) and slicing.
 */
module Seqs {
  import opened Wrappers

  /**
    Position of the last element whose key is k, None when there is none;
    where keys are unique (a primary key) it is the row a get() by key finds.
   */
  function FindKey<T>(s: seq<T>, key: T -> int, k: int): (r: Option<nat>)
    ensures r.Some? ==> r.value < |s| && key(s[r.value]) == k
    ensures r.None? ==> forall i :: 0 <= i < |s| ==> key(s[i]) != k
  {
    if s == [] then None
    else if key(s[|s| - 1]) == k then Some(|s| - 1)
    else FindKey(s[..|s| - 1], key, k)
  }

  /** sum(f(x) for x in s), 0 on an empty sequence. */
  function Sum<T>(s: seq<T>, f: T -> real): real
  {
    if s == [] then 0.0 else Sum(s[..|s| - 1], f) + f(s[|s| - 1])
  }

  lemma {:induction false} SumAppend<T>(a: seq<T>, b: seq<T>, f: T -> real)
    ensures Sum(a + b, f) == Sum(a, f) + Sum(b, f)
    decreases |b|
  {
    if b == [] {
      assert a + b == a;
    } else {
      assert (a + b)[..|a + b| - 1] == a + b[..|b| - 1];
      SumAppend(a, b[..|b| - 1], f);
    }
  }

  lemma {:induction false} SumNonNegative<T>(s: seq<T>, f: T -> real)
    requires forall i :: 0 <= i < |s| ==> f(s[i]) >= 0.0
    ensures Sum(s, f) >= 0.0
  {
    if s != [] {
      SumNonNegative(s[..|s| - 1], f);
    }
  }

  /** Every term between lo and hi puts the sum between |s| lows and |s| highs. */
  lemma {:induction false} SumBounds<T>(s: seq<T>, f: T -> real, lo: real, hi: real)
    requires forall i :: 0 <= i < |s| ==> lo <= f(s[i]) <= hi
    ensures lo * |s| as real <= Sum(s, f) <= hi * |s| as real
  {
    if s != [] {
      SumBounds(s[..|s| - 1], f, lo, hi);
    }
  }

  /** A sum of differences is the difference of the sums. */
  lemma {:induction false} SumDifference<T>(s: seq<T>, f: T -> real, g: T -> real, h: T -> real)
    requires forall i :: 0 <= i < |s| ==> h(s[i]) == f(s[i]) - g(s[i])
    ensures Sum(s, h) == Sum(s, f) - Sum(s, g)
  {
    if s != [] {
      SumDifference(s[..|s| - 1], f, g, h);
    }
  }

  /** Number of elements of s that satisfy p. */
  function Count<T>(s: seq<T>, p: T -> bool): (n: nat)
    ensures n <= |s|
    ensures n == |s| <==> forall i :: 0 <= i < |s| ==> p(s[i])
  {
    if s == [] then 0 else Count(s[..|s| - 1], p) + (if p(s[|s| - 1]) then 1 else 0)
  }

  /** Two sequences whose elements pass their tests at the same positions have the same count. */
  lemma {:induction false} CountSame<T, U>(s: seq<T>, p: T -> bool, t: seq<U>, q: U -> bool)
    requires |s| == |t|
    requires forall i :: 0 <= i < |s| ==> p(s[i]) == q(t[i])
    ensures Count(s, p) == Count(t, q)
  {
    if s != [] {
      CountSame(s[..|s| - 1], p, t[..|t| - 1], q);
    }
  }

  /** The elements of s that satisfy p, in their order. */
  function Filter<T>(s: seq<T>, p: T -> bool): (r: seq<T>)
    ensures |r| == Count(s, p)
    ensures forall i :: 0 <= i < |r| ==> r[i] in s && p(r[i])
    ensures forall i :: 0 <= i < |s| && p(s[i]) ==> s[i] in r
  {
    if s == [] then []
    else if p(s[|s| - 1]) then Filter(s[..|s| - 1], p) + [s[|s| - 1]]
    else Filter(s[..|s| - 1], p)
  }

  /** Two tests that agree on every element select the same elements. */
  lemma {:induction false} FilterSame<T>(s: seq<T>, p: T -> bool, q: T -> bool)
    requires forall i :: 0 <= i < |s| ==> p(s[i]) == q(s[i])
    ensures Filter(s, p) == Filter(s, q)
  {
    if s != [] {
      FilterSame(s[..|s| - 1], p, q);
    }
  }

  /** A sum splits into the part a test selects and the part its complement selects. */
  lemma {:induction false} SumSplit<T>(s: seq<T>, p: T -> bool, q: T -> bool, f: T -> real)
    requires forall i :: 0 <= i < |s| ==> q(s[i]) == !p(s[i])
    ensures Sum(s, f) == Sum(Filter(s, p), f) + Sum(Filter(s, q), f)
  {
    if s != [] {
      var init, last := s[..|s| - 1], s[|s| - 1];
      SumSplit(init, p, q, f);
      if p(last) {
        SumAppend(Filter(init, p), [last], f);
      } else {
        SumAppend(Filter(init, q), [last], f);
      }
    }
  }

  /** list.reverse(). */
  function Reverse<T>(s: seq<T>): (r: seq<T>)
    ensures |r| == |s|
    ensures forall i :: 0 <= i < |s| ==> r[i] == s[|s| - 1 - i]
  {
    if s == [] then [] else Reverse(s[1..]) + [s[0]]
  }

  /** s[:k]. */
  function Take<T>(s: seq<T>, k: nat): (r: seq<T>)
    ensures |r| == if k < |s| then k else |s|
    ensures multiset(r) <= multiset(s)
  {
    if k < |s| then
      assert s == s[..k] + s[k..];
      s[..k]
    else s
  }

  predicate SortedDesc<T>(s: seq<T>, key: T -> int)
  {
    forall i, j :: 0 <= i < j < |s| ==> key(s[i]) >= key(s[j])
  }

  /** Places x after every element of the sorted t whose key is at least key(x). */
  function InsertDesc<T>(x: T, t: seq<T>, key: T -> int): (r: seq<T>)
    requires SortedDesc(t, key)
    ensures SortedDesc(r, key)
    ensures multiset(r) == multiset(t) + multiset{x}
  {
    if t == [] || key(t[|t| - 1]) >= key(x) then
      AppendLowest(t, x, key);
      t + [x]
    else
      var last := t[|t| - 1];
      var init := t[..|t| - 1];
      assert t == init + [last];
      var r' := InsertDesc(x, init, key);
      forall i | 0 <= i < |r'| ensures key(r'[i]) >= key(last) {
        assert r'[i] in multiset(r');
        if r'[i] != x {
          assert r'[i] in init;
        }
      }
      AppendLowest(r', last, key);
      r' + [last]
  }

  /** The length of the longest prefix of t whose keys are all at least k (t sorted descending). */
  function PrefixAtLeast<T>(t: seq<T>, key: T -> int, k: int): (p: nat)
    ensures p <= |t|
  {
    if t == [] || key(t[|t| - 1]) >= k then |t| else PrefixAtLeast(t[..|t| - 1], key, k)
  }

  /**
    Where InsertDesc puts x: after every element whose key is at least x's,
    equal keys included, and before the rest. Elements sorted one by one
    therefore keep their input order among equal keys, as Python's sort does.
   */
  lemma InsertDescAfterEqual<T>(x: T, t: seq<T>, key: T -> int)
    requires SortedDesc(t, key)
    ensures var p := PrefixAtLeast(t, key, key(x));
      && InsertDesc(x, t, key) == t[..p] + [x] + t[p..]
      && (forall i :: 0 <= i < p ==> key(t[i]) >= key(x))
      && (forall i :: p <= i < |t| ==> key(t[i]) < key(x))
  {
    InsertDescAt(x, t, key);
    PrefixAtLeastSplits(t, key, key(x));
  }

  lemma {:induction false} InsertDescAt<T>(x: T, t: seq<T>, key: T -> int)
    requires SortedDesc(t, key)
    ensures var p := PrefixAtLeast(t, key, key(x));
      InsertDesc(x, t, key) == t[..p] + [x] + t[p..]
  {
    var p := PrefixAtLeast(t, key, key(x));
    if t == [] || key(t[|t| - 1]) >= key(x) {
      assert t[..p] == t && t[p..] == [];
    } else {
      var init := t[..|t| - 1];
      assert SortedDesc(init, key);
      InsertDescAt(x, init, key);
      assert InsertDesc(x, t, key) == InsertDesc(x, init, key) + [t[|t| - 1]];
      InsertBeforeLast(t, p, x);
    }
  }

  /** Inserting at p and then appending the last element is inserting at p into the whole. */
  lemma InsertBeforeLast<T>(t: seq<T>, p: nat, x: T)
    requires p < |t|
    ensures t[..|t| - 1][..p] + [x] + t[..|t| - 1][p..] + [t[|t| - 1]] == t[..p] + [x] + t[p..]
  {
    var init := t[..|t| - 1];
    assert init[..p] == t[..p];
    assert init[p..] + [t[|t| - 1]] == t[p..];
  }

  /** In a descending sequence, the keys at least k come first and the smaller ones after. */
  lemma {:induction false} PrefixAtLeastSplits<T>(t: seq<T>, key: T -> int, k: int)
    requires SortedDesc(t, key)
    ensures var p := PrefixAtLeast(t, key, k);
      && (forall i :: 0 <= i < p ==> key(t[i]) >= k)
      && (forall i :: p <= i < |t| ==> key(t[i]) < k)
  {
    var p := PrefixAtLeast(t, key, k);
    if t == [] || key(t[|t| - 1]) >= k {
      forall i | 0 <= i < p ensures key(t[i]) >= k {
        assert key(t[i]) >= key(t[|t| - 1]);
      }
    } else {
      var init := t[..|t| - 1];
      assert SortedDesc(init, key);
      PrefixAtLeastSplits(init, key, k);
      forall i | 0 <= i < p ensures key(t[i]) >= k {
        assert t[i] == init[i];
      }
      forall i | p <= i < |t| ensures key(t[i]) < k {
        if i < |t| - 1 {
          assert t[i] == init[i];
        }
      }
    }
  }

  /** Appending an element whose key is at most every key keeps a sequence sorted. */
  lemma AppendLowest<T>(t: seq<T>, x: T, key: T -> int)
    requires SortedDesc(t, key)
    requires t == [] || key(t[|t| - 1]) >= key(x) || forall i :: 0 <= i < |t| ==> key(t[i]) >= key(x)
    ensures SortedDesc(t + [x], key)
  {
    var r := t + [x];
    forall i, j | 0 <= i < j < |r| ensures key(r[i]) >= key(r[j]) {
      if j == |t| && i < |t| - 1 {
        assert key(t[i]) >= key(t[|t| - 1]);
      }
    }
  }

  /**
    The first k of a descending sort: a sorted selection of the elements of s
    that leaves out only elements whose key is at most every kept key.
   */
  lemma {:induction false} TakeSortedIsTop<T>(s: seq<T>, key: T -> int, k: nat)
    ensures var sorted := SortDesc(s, key);
      var top := Take(sorted, k);
      && SortedDesc(top, key)
      && (forall i :: 0 <= i < |top| ==> top[i] in s)
      && (forall i, m :: 0 <= i < |top| <= m < |sorted| ==> key(top[i]) >= key(sorted[m]))
      && multiset(sorted) == multiset(s)
  {
    var sorted := SortDesc(s, key);
    var top := Take(sorted, k);
    assert top == sorted[..|top|];
    forall i | 0 <= i < |top| ensures top[i] in s {
      assert top[i] in multiset(sorted);
    }
  }

  /**
    sorted(s, key=key, reverse=True), most recent first: each element is
    inserted after the earlier ones with an equal key (InsertDescAfterEqual).
   */
  function SortDesc<T>(s: seq<T>, key: T -> int): (r: seq<T>)
    ensures SortedDesc(r, key)
    ensures multiset(r) == multiset(s)
    ensures |r| == |s|
  {
    if s == [] then []
    else
      assert s == s[..|s| - 1] + [s[|s| - 1]];
      var r := InsertDesc(s[|s| - 1], SortDesc(s[..|s| - 1], key), key);
      assert |r| == |multiset(r)|;
      r
  }

  /** A descending sort holds exactly the elements it was given. */
  lemma SortDescMembers<T>(s: seq<T>, key: T -> int)
    ensures forall x :: x in SortDesc(s, key) <==> x in s
  {
    forall x ensures x in SortDesc(s, key) <==> x in s {
      assert x in SortDesc(s, key) <==> x in multiset(SortDesc(s, key));
      assert x in s <==> x in multiset(s);
    }
  }

  predicate SortedAsc<T>(s: seq<T>, key: T -> int)
  {
    forall i, j :: 0 <= i < j < |s| ==> key(s[i]) <= key(s[j])
  }

  /**
    sorted(s, key=key), smallest key first, as an ascending ORDER BY gives:
    the descending sort on the negated key, so equal keys keep their order.
   */
  function SortAsc<T>(s: seq<T>, key: T -> int): (r: seq<T>)
    ensures SortedAsc(r, key)
    ensures multiset(r) == multiset(s)
    ensures |r| == |s|
  {
    var r := SortDesc(s, (x: T) => 0 - key(x));
    assert forall i, j :: 0 <= i < j < |r| ==> 0 - key(r[i]) >= 0 - key(r[j]);
    r
  }

  /** An ascending sort holds exactly the elements it was given. */
  lemma SortAscMembers<T>(s: seq<T>, key: T -> int)
    ensures forall x :: x in SortAsc(s, key) <==> x in s
  {
    SortDescMembers(s, (x: T) => 0 - key(x));
  }
}
