/**
  Counting and grouping over sequences, shared by the steps that build
  dictionaries keyed by first appearance (JavaScript `Map`, `Set` and plain
  objects iterate in insertion order) and by the fixed-size batch loops.
 */
module Tally {

  predicate NoDuplicates<T(==)>(s: seq<T>) {
    forall i, j :: 0 <= i < j < |s| ==> s[i] != s[j]
  }

  /** How often `x` occurs in `s`. */
  function Occurrences<T(==)>(s: seq<T>, x: T): nat {
    multiset(s)[x]
  }

  /** The elements of `s` in order of first appearance, each once: what
      `[...new Set(s)]` gives, and the key order of a dictionary filled from
      `s`. */
  function Distinct<T(==)>(s: seq<T>): (r: seq<T>)
    ensures NoDuplicates(r)
    ensures forall i :: 0 <= i < |r| ==> r[i] in s
    ensures forall i :: 0 <= i < |s| ==> s[i] in r
    ensures |r| <= |s|
  {
    if s == [] then []
    else
      var init := Distinct(s[..|s| - 1]);
      var last := s[|s| - 1];
      assert s == s[..|s| - 1] + [last];
      if last in init then init else init + [last]
  }

  lemma DistinctSnoc<T>(s: seq<T>, x: T)
    ensures Distinct(s + [x]) == Distinct(s) + (if x in s then [] else [x])
  {
    assert (s + [x])[..|s|] == s;
  }

  /** The first position of `x` in `s`. */
  function FirstIndex<T(==)>(s: seq<T>, x: T): (i: nat)
    requires x in s
    ensures i < |s| && s[i] == x && x !in s[..i]
  {
    if s[0] == x then 0
    else
      var i := FirstIndex(s[1..], x) + 1;
      assert s[..i] == [s[0]] + s[1..][..i - 1];
      i
  }

  lemma FirstIndexSnoc<T>(s: seq<T>, y: T, x: T)
    requires x in s
    ensures FirstIndex(s + [y], x) == FirstIndex(s, x)
  {
    if s[0] != x {
      assert (s + [y])[1..] == s[1..] + [y];
      FirstIndexSnoc(s[1..], y, x);
    }
  }

  /** Each distinct element of `s` mapped to how often it occurs: the
      dictionary a `counts[x] = (counts[x] ?? 0) + 1` loop over `s` builds. */
  function Histogram<T(==)>(s: seq<T>): (h: map<T, nat>)
    ensures h.Keys == set x | x in s
    ensures forall x :: x in h ==> h[x] == Occurrences(s, x) && h[x] >= 1
  {
    map x | x in s :: Occurrences(s, x)
  }

  /** Counting one more element changes only that element's entry. */
  lemma HistogramSnoc<T>(s: seq<T>, x: T)
    ensures Histogram(s + [x]) == Histogram(s)[x := Occurrences(s, x) + 1]
  {
    assert multiset(s + [x]) == multiset(s) + multiset{x};
    var h, h' := Histogram(s + [x]), Histogram(s)[x := Occurrences(s, x) + 1];
    assert h.Keys == h'.Keys;
    forall y | y in h ensures h[y] == h'[y] {
    }
  }

  /** `m[k]`, or 0 for a key `m` does not have (`m[k] ?? 0`). */
  function Get<T>(m: map<T, nat>, k: T): nat {
    if k in m then m[k] else 0
  }

  /** The sum of `m`'s values over `keys`. */
  function SumOver<T>(keys: seq<T>, m: map<T, nat>): nat {
    if keys == [] then 0
    else SumOver(keys[..|keys| - 1], m) + Get(m, keys[|keys| - 1])
  }

  lemma {:induction false} SumOverAppend<T>(keys: seq<T>, k: T, m: map<T, nat>)
    ensures SumOver(keys + [k], m) == SumOver(keys, m) + Get(m, k)
  {
    assert (keys + [k])[..|keys|] == keys;
  }

  /** Entries outside `keys` do not contribute. */
  lemma {:induction false} SumOverOther<T>(keys: seq<T>, m: map<T, nat>, x: T, v: nat)
    requires x !in keys
    ensures SumOver(keys, m[x := v]) == SumOver(keys, m)
  {
    if keys != [] {
      SumOverOther(keys[..|keys| - 1], m, x, v);
    }
  }

  /** Raising one entry, listed once in `keys`, by one raises the sum by one. */
  lemma {:induction false} SumOverBump<T>(keys: seq<T>, m: map<T, nat>, x: T)
    requires NoDuplicates(keys) && x in keys
    ensures SumOver(keys, m[x := Get(m, x) + 1]) == SumOver(keys, m) + 1
  {
    var init := keys[..|keys| - 1];
    if keys[|keys| - 1] == x {
      assert x !in init;
      SumOverOther(init, m, x, Get(m, x) + 1);
    } else {
      assert x in init;
      SumOverBump(init, m, x);
    }
  }

  /** Every element counted once: the histogram's values over its keys sum
      to the length of the sequence. */
  lemma {:induction false} HistogramTotal<T>(s: seq<T>)
    ensures SumOver(Distinct(s), Histogram(s)) == |s|
  {
    if s != [] {
      var init, x := s[..|s| - 1], s[|s| - 1];
      assert s == init + [x];
      HistogramTotal(init);
      DistinctSnoc(init, x);
      HistogramSnoc(init, x);
      if x in init {
        HistogramTotalSeen(init, x);
      } else {
        HistogramTotalNew(init, x);
      }
    }
  }

  lemma HistogramTotalSeen<T>(init: seq<T>, x: T)
    requires x in init
    ensures SumOver(Distinct(init), Histogram(init)[x := Occurrences(init, x) + 1])
         == SumOver(Distinct(init), Histogram(init)) + 1
  {
    var d, h := Distinct(init), Histogram(init);
    var i :| 0 <= i < |init| && init[i] == x;
    assert x in d;
    SumOverBump(d, h, x);
  }

  lemma HistogramTotalNew<T>(init: seq<T>, x: T)
    requires x !in init
    ensures SumOver(Distinct(init) + [x], Histogram(init)[x := Occurrences(init, x) + 1])
         == SumOver(Distinct(init), Histogram(init)) + 1
  {
    var d, h := Distinct(init), Histogram(init);
    assert Occurrences(init, x) == 0;
    assert x !in d;
    SumOverOther(d, h, x, 1);
    SumOverAppend(d, x, h[x := 1]);
  }

  /** Consecutive slices of length `n` (the last one shorter), as a loop
      `for (i = 0; i < s.length; i += n) out.push(s.slice(i, i + n))` makes. */
  function Chunks<T>(s: seq<T>, n: nat): seq<seq<T>>
    requires n > 0
    decreases |s|
  {
    if s == [] then []
    else if |s| <= n then [s]
    else [s[..n]] + Chunks(s[n..], n)
  }

  function Concat<T>(ss: seq<seq<T>>): seq<T> {
    if ss == [] then [] else ss[0] + Concat(ss[1..])
  }

  lemma {:induction false} ConcatAppend<T>(a: seq<seq<T>>, b: seq<seq<T>>)
    ensures Concat(a + b) == Concat(a) + Concat(b)
  {
    if a != [] {
      assert (a + b)[1..] == a[1..] + b;
      ConcatAppend(a[1..], b);
    } else {
      assert a + b == b;
    }
  }

  /** An element of one of the parts is an element of the concatenation. */
  lemma {:induction false} ConcatContains<T>(ss: seq<seq<T>>, i: nat, x: T)
    requires i < |ss| && x in ss[i]
    ensures x in Concat(ss)
  {
    if i > 0 {
      ConcatContains(ss[1..], i - 1, x);
    }
  }

  /** Chunking loses and duplicates nothing: the chunks concatenate back to
      the input. */
  lemma {:induction false} ChunksConcat<T>(s: seq<T>, n: nat)
    requires n > 0
    ensures Concat(Chunks(s, n)) == s
    decreases |s|
  {
    if |s| > n {
      ChunksConcat(s[n..], n);
      assert ([s[..n]] + Chunks(s[n..], n))[1..] == Chunks(s[n..], n);
    }
  }

  /** `ceil(|s| / n)` chunks (the least `k` with `|s| <= k * n`); every chunk
      but the last has exactly `n` elements, the last between 1 and `n`. */
  lemma {:induction false} ChunksShape<T>(s: seq<T>, n: nat)
    requires n > 0
    ensures |s| <= |Chunks(s, n)| * n
    ensures |Chunks(s, n)| == 0 || (|Chunks(s, n)| - 1) * n < |s|
    ensures forall k :: 0 <= k < |Chunks(s, n)| - 1 ==> |Chunks(s, n)[k]| == n
    ensures |Chunks(s, n)| > 0 ==> 1 <= |Chunks(s, n)[|Chunks(s, n)| - 1]| <= n
    decreases |s|
  {
    if |s| > n {
      var rest := Chunks(s[n..], n);
      ChunksShape(s[n..], n);
      assert Chunks(s, n) == [s[..n]] + rest;
      assert (|rest| + 1) * n == |rest| * n + n;
    }
  }

  /** The first chunk of a non-empty sequence is its first `n` elements (or
      all of them), and the rest are the chunks of what follows. */
  lemma ChunksHead<T>(s: seq<T>, n: nat)
    requires n > 0 && s != []
    ensures Chunks(s, n) == [s[..if |s| <= n then |s| else n]] + Chunks(s[if |s| <= n then |s| else n..], n)
  {
    if |s| <= n {
      assert s[|s|..] == [];
      assert s[..|s|] == s;
    }
  }

  /** An element listed twice is counted at least twice. */
  lemma Twice<T>(s: seq<T>, i: nat, j: nat)
    requires i < j < |s| && s[i] == s[j]
    ensures multiset(s)[s[i]] >= 2
  {
    assert s == s[..j] + [s[j]] + s[j + 1..];
    assert s[i] in s[..j];
  }

  /** Without duplicates every element is counted at most once. */
  lemma {:induction false} NoDuplicatesOnce<T>(s: seq<T>, x: T)
    requires NoDuplicates(s)
    ensures multiset(s)[x] <= 1
  {
    if s != [] {
      assert s == [s[0]] + s[1..];
      NoDuplicatesOnce(s[1..], x);
      if x == s[0] {
        assert x !in s[1..];
      }
    }
  }

  /** Reordering keeps a sequence free of duplicates. */
  lemma PermutationNoDuplicates<T>(s: seq<T>, t: seq<T>)
    requires NoDuplicates(s) && multiset(s) == multiset(t)
    ensures NoDuplicates(t)
  {
    forall i, j | 0 <= i < j < |t| ensures t[i] != t[j] {
      if t[i] == t[j] {
        Twice(t, i, j);
        NoDuplicatesOnce(s, t[i]);
      }
    }
  }

  /** What appending `y` to `keys` does to key `k`. */
  lemma SnocFacts<T>(keys: seq<T>, y: T, k: T)
    ensures k in keys + [y] <==> k in keys || k == y
    ensures Occurrences(keys + [y], k) == Occurrences(keys, k) + if k == y then 1 else 0
    ensures k in keys ==> FirstIndex(keys + [y], k) == FirstIndex(keys, k)
    ensures k !in keys && k == y ==> FirstIndex(keys + [y], k) == |keys|
  {
    assert multiset(keys + [y]) == multiset(keys) + multiset{y};
    if k in keys {
      FirstIndexSnoc(keys, y, k);
    }
  }

  /** `xs.map(f).flat()`: the results of `f` on each element, concatenated
      in order. */
  function FlatMap<A, B>(xs: seq<A>, f: A -> seq<B>): seq<B> {
    if xs == [] then [] else f(xs[0]) + FlatMap(xs[1..], f)
  }

  lemma {:induction false} FlatMapAppend<A, B>(a: seq<A>, b: seq<A>, f: A -> seq<B>)
    ensures FlatMap(a + b, f) == FlatMap(a, f) + FlatMap(b, f)
  {
    if a == [] {
      assert a + b == b;
    } else {
      assert (a + b)[1..] == a[1..] + b;
      FlatMapAppend(a[1..], b, f);
    }
  }

  /** An element mapped to nothing drops out of the flattening. */
  lemma FlatMapSkip<A, B>(a: seq<A>, x: A, b: seq<A>, f: A -> seq<B>)
    requires f(x) == []
    ensures FlatMap(a + [x] + b, f) == FlatMap(a, f) + FlatMap(b, f)
  {
    FlatMapAppend(a + [x], b, f);
    FlatMapAppend(a, [x], f);
    assert FlatMap([x], f) == f(x) + FlatMap([x][1..], f);
  }
}
