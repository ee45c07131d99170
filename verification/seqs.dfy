/** Facts about sequences used for the tracker's insertion order. */
module Seqs {

  predicate Distinct<T(==)>(s: seq<T>) {
    forall i, j | 0 <= i < j < |s| :: s[i] != s[j]
  }

  /** Position of the first occurrence of `x` in `s`. */
  function IndexOf<T(==)>(s: seq<T>, x: T): (i: nat)
    requires x in s
    ensures i < |s| && s[i] == x
    ensures forall j :: 0 <= j < i ==> s[j] != x
  {
    if s[0] == x then 0 else 1 + IndexOf(s[1..], x)
  }

  /** Every element of `sub` occurs in `s`, and `sub` lists them in the order
      in which they occur in `s`. */
  ghost predicate InOrderOf<T>(sub: seq<T>, s: seq<T>) {
    && (forall x :: x in sub ==> x in s)
    && forall i, j | 0 <= i < j < |sub| :: IndexOf(s, sub[i]) < IndexOf(s, sub[j])
  }

  lemma IndexOfAppend<T>(s: seq<T>, y: T, x: T)
    requires x in s
    ensures IndexOf(s + [y], x) == IndexOf(s, x)
  {
    var i := IndexOf(s, x);
    assert (s + [y])[i] == x;
  }

  lemma IndexOfLast<T>(s: seq<T>, y: T)
    requires y !in s
    ensures IndexOf(s + [y], y) == |s|
  {
    assert (s + [y])[|s|] == y;
  }

  /** Appending to a sequence keeps an in-order subsequence in order. */
  lemma InOrderGrow<T>(sub: seq<T>, s: seq<T>, y: T)
    requires InOrderOf(sub, s)
    ensures InOrderOf(sub, s + [y])
  {
    forall x | x in sub
      ensures IndexOf(s + [y], x) == IndexOf(s, x)
    {
      IndexOfAppend(s, y, x);
    }
  }

  /** Appending to a sequence keeps an in-order subsequence in order, and
      appending the new element to both keeps it in order too. */
  lemma InOrderExtend<T>(sub: seq<T>, s: seq<T>, y: T, takeIt: bool)
    requires InOrderOf(sub, s) && y !in s
    ensures InOrderOf(if takeIt then sub + [y] else sub, s + [y])
  {
    var s' := s + [y];
    var sub' := if takeIt then sub + [y] else sub;
    forall x | x in sub
      ensures IndexOf(s', x) == IndexOf(s, x)
    {
      IndexOfAppend(s, y, x);
    }
    IndexOfLast(s, y);
    forall i, j | 0 <= i < j < |sub'|
      ensures IndexOf(s', sub'[i]) < IndexOf(s', sub'[j])
    {
      assert sub'[i] == sub[i];
      if j < |sub| {
        assert sub'[j] == sub[j];
      } else {
        assert sub'[j] == y;
      }
    }
  }

  /** The elements of `s` that satisfy `p`, in their order in `s` (a Python
      list comprehension with an `if`). */
  function Filter<T>(s: seq<T>, p: T -> bool): (r: seq<T>)
    ensures |r| <= |s|
    decreases |s|
  {
    if s == [] then []
    else
      var prev := Filter(s[..|s| - 1], p);
      if p(s[|s| - 1]) then prev + [s[|s| - 1]] else prev
  }

  lemma FilterAppend<T>(s: seq<T>, x: T, p: T -> bool)
    ensures Filter(s + [x], p) == if p(x) then Filter(s, p) + [x] else Filter(s, p)
  {
    assert (s + [x])[..|s|] == s;
  }

  /** One step of a loop that filters a sequence from the front. */
  lemma FilterPrefixStep<T>(s: seq<T>, i: int, p: T -> bool)
    requires 0 <= i < |s|
    ensures Filter(s[..i + 1], p) == if p(s[i]) then Filter(s[..i], p) + [s[i]] else Filter(s[..i], p)
  {
    assert s[..i + 1] == s[..i] + [s[i]];
    FilterAppend(s[..i], s[i], p);
  }

  /** Filter keeps exactly the elements that satisfy the predicate. */
  lemma {:induction false} FilterMembers<T>(s: seq<T>, p: T -> bool)
    ensures forall x :: x in Filter(s, p) <==> x in s && p(x)
    decreases |s|
  {
    if s != [] {
      var init := s[..|s| - 1];
      FilterMembers(init, p);
      assert s == init + [s[|s| - 1]];
    }
  }

  /** Filtering a sequence without repetitions keeps its order and adds no
      repetition. */
  lemma {:induction false} FilterInOrder<T>(s: seq<T>, p: T -> bool)
    requires Distinct(s)
    ensures InOrderOf(Filter(s, p), s) && Distinct(Filter(s, p))
    decreases |s|
  {
    if s == [] {
    } else {
      var init, last := s[..|s| - 1], s[|s| - 1];
      assert s == init + [last];
      assert Distinct(init);
      FilterInOrder(init, p);
      FilterMembers(init, p);
      assert last !in init;
      InOrderExtend(Filter(init, p), init, last, p(last));
    }
  }

  /** A sequence without repetitions has as many elements as its set. */
  lemma {:induction false} DistinctCard<T>(s: seq<T>)
    requires Distinct(s)
    ensures |set x | x in s| == |s|
    decreases |s|
  {
    if s != [] {
      var init, last := s[..|s| - 1], s[|s| - 1];
      assert s == init + [last];
      DistinctCard(init);
      assert last !in init;
      assert (set x | x in s) == (set x | x in init) + {last};
    }
  }

  /** The map `e` with `f` applied, one key after another, to the entry of
      every key of `ks` (a loop that rewrites dictionary values in place). */
  function ApplyEach<K, V>(e: map<K, V>, ks: seq<K>, f: (K, V) -> V): map<K, V>
    requires forall k | k in ks :: k in e
    decreases |ks|
  {
    if ks == [] then e
    else
      var k := ks[|ks| - 1];
      ApplyEach(e, ks[..|ks| - 1], f)[k := f(k, e[k])]
  }

  /** Applying `f` along a list without repetitions touches exactly the listed
      keys, once each, and keeps the domain. */
  lemma {:induction false} ApplyEachSpec<K, V>(e: map<K, V>, ks: seq<K>, f: (K, V) -> V)
    requires forall k | k in ks :: k in e
    requires Distinct(ks)
    ensures ApplyEach(e, ks, f).Keys == e.Keys
    ensures forall k | k in e :: ApplyEach(e, ks, f)[k] == if k in ks then f(k, e[k]) else e[k]
    decreases |ks|
  {
    if ks != [] {
      var init := ks[..|ks| - 1];
      assert ks == init + [ks[|ks| - 1]];
      ApplyEachSpec(e, init, f);
    }
  }

  /** One more step of the loop. */
  lemma ApplyEachAppend<K, V>(e: map<K, V>, ks: seq<K>, k: K, f: (K, V) -> V)
    requires forall x | x in ks :: x in e
    requires k in e
    ensures ApplyEach(e, ks + [k], f) == ApplyEach(e, ks, f)[k := f(k, e[k])]
  {
    assert (ks + [k])[..|ks|] == ks;
  }

  /** `f` of the entry of each of `ks`, in order. */
  function Project<K, V, R>(e: map<K, V>, ks: seq<K>, f: V -> R): (r: seq<R>)
    requires forall k | k in ks :: k in e
    ensures |r| == |ks|
    decreases |ks|
  {
    if ks == [] then [] else Project(e, ks[..|ks| - 1], f) + [f(e[ks[|ks| - 1]])]
  }

  /** The n-th element is `f` of the n-th key's entry. */
  lemma {:induction false} ProjectSpec<K, V, R>(e: map<K, V>, ks: seq<K>, f: V -> R)
    requires forall k | k in ks :: k in e
    ensures forall n | 0 <= n < |ks| :: Project(e, ks, f)[n] == f(e[ks[n]])
    decreases |ks|
  {
    if ks != [] {
      var init := ks[..|ks| - 1];
      ProjectSpec(e, init, f);
      var r, p := Project(e, ks, f), Project(e, init, f);
      forall n | 0 <= n < |init|
        ensures r[n] == f(e[ks[n]])
      {
        assert r[n] == p[n] && init[n] == ks[n];
      }
    }
  }

  /** One more step of a loop over `ks`. */
  lemma ProjectStep<K, V, R>(e: map<K, V>, ks: seq<K>, j: int, f: V -> R)
    requires 0 <= j < |ks|
    requires forall k | k in ks :: k in e
    ensures Project(e, ks[..j + 1], f) == Project(e, ks[..j], f) + [f(e[ks[j]])]
  {
    assert ks[..j + 1][..j] == ks[..j];
  }

  /** The set of the elements of `s`. */
  function Elems<T(!new)>(s: seq<T>): (r: set<T>)
    ensures forall x :: x in r <==> x in s
    decreases |s|
  {
    if s == [] then {} else Elems(s[..|s| - 1]) + {s[|s| - 1]}
  }

  /** A sequence never has more distinct elements than positions. */
  lemma {:induction false} ElemsCard<T(!new)>(s: seq<T>)
    ensures |Elems(s)| <= |s|
    decreases |s|
  {
    if s != [] {
      ElemsCard(s[..|s| - 1]);
    }
  }

  /** A sequence with as many distinct elements as positions repeats none. */
  lemma {:induction false} CardDistinct<T(!new)>(s: seq<T>)
    requires |Elems(s)| == |s|
    ensures Distinct(s)
    decreases |s|
  {
    if s != [] {
      var init, last := s[..|s| - 1], s[|s| - 1];
      assert s == init + [last];
      ElemsCard(init);
      assert Elems(s) == Elems(init) + {last};
      CardDistinct(init);
      DistinctAppend(init, last);
    }
  }

  lemma DistinctAppend<T>(s: seq<T>, x: T)
    requires Distinct(s) && x !in s
    ensures Distinct(s + [x])
  {
  }

  lemma ElemsPrefixStep<T(!new)>(s: seq<T>, j: int)
    requires 0 <= j < |s|
    ensures Elems(s[..j + 1]) == Elems(s[..j]) + {s[j]}
  {
    assert s[..j + 1][..j] == s[..j];
  }

  /** Removing keys in two rounds is removing them all at once. */
  lemma MapMinusTwice<K, V>(m: map<K, V>, a: set<K>, b: set<K>)
    ensures (m - a) - b == m - (a + b)
  {
  }
}
