/** The array operations the hooks and panels are written with (`filter`,
    `reduce` to a sum, `find`, `map` replacing by id, `includes` on strings,
    `sort`, `[...new Set(xs)]`), as functions with the facts the rest of the
    model relies on. */
module Seqs {
  import opened Base

  // ---------------------------------------------------------------- filter

  /** `s.filter(p)`: the elements satisfying `p`, in their original order. */
  function Filter<T>(s: seq<T>, p: T -> bool): (r: seq<T>)
    ensures |r| <= |s|
    ensures forall i :: 0 <= i < |r| ==> r[i] in s && p(r[i])
  {
    if s == [] then []
    else
      assert s == [s[0]] + s[1..];
      if p(s[0]) then [s[0]] + Filter(s[1..], p) else Filter(s[1..], p)
  }

  /** A filter keeps every element that satisfies its predicate. */
  lemma {:induction false} FilterKeeps<T>(s: seq<T>, p: T -> bool, x: T)
    requires x in s && p(x)
    ensures x in Filter(s, p)
  {
    if s[0] != x {
      FilterKeeps(s[1..], p, x);
    }
  }

  /** A filter takes each element at most as often as the input holds it. */
  lemma {:induction false} FilterMultiset<T>(s: seq<T>, p: T -> bool)
    ensures multiset(Filter(s, p)) <= multiset(s)
  {
    if s != [] {
      FilterMultiset(s[1..], p);
      assert s == [s[0]] + s[1..];
    }
  }

  /** A filter nothing passes keeps nothing. */
  lemma {:induction false} FilterNonePass<T>(s: seq<T>, p: T -> bool)
    requires forall x :: x in s ==> !p(x)
    ensures Filter(s, p) == []
  {
    if s != [] {
      assert s[0] in s;
      assert forall x :: x in s[1..] ==> x in s;
      FilterNonePass(s[1..], p);
    }
  }

  /** A filter keeps the relative order of what it keeps: elements ranked in
      increasing order stay so. */
  lemma {:induction false} FilterKeepsOrder<T>(s: seq<T>, p: T -> bool, rank: T -> int)
    requires forall i, j :: 0 <= i < j < |s| ==> rank(s[i]) < rank(s[j])
    ensures forall i, j :: 0 <= i < j < |Filter(s, p)| ==> rank(Filter(s, p)[i]) < rank(Filter(s, p)[j])
  {
    if s != [] {
      var tail := s[1..];
      FilterKeepsOrder(tail, p, rank);
      var t := Filter(tail, p);
      forall x | x in t ensures rank(s[0]) < rank(x) {
        var k :| 0 <= k < |tail| && tail[k] == x;
        assert s[k + 1] == x;
      }
      if p(s[0]) {
        var r := [s[0]] + t;
        forall i, j | 0 <= i < j < |r| ensures rank(r[i]) < rank(r[j]) {
          assert r[j] == t[j - 1];
          if i > 0 {
            assert r[i] == t[i - 1];
          } else {
            assert t[j - 1] in t;
          }
        }
      }
    }
  }

  /** The complement of a predicate. */
  function Not<T>(p: T -> bool): T -> bool
  {
    x => !p(x)
  }

  lemma {:induction false} FilterConcat<T>(a: seq<T>, b: seq<T>, p: T -> bool)
    ensures Filter(a + b, p) == Filter(a, p) + Filter(b, p)
  {
    if a == [] {
      assert a + b == b;
    } else {
      assert (a + b)[0] == a[0];
      assert (a + b)[1..] == a[1..] + b;
      FilterConcat(a[1..], b, p);
    }
  }

  /** Filtering a sequence with one element appended. */
  lemma FilterSnoc<T>(s: seq<T>, x: T, p: T -> bool)
    ensures Filter(s + [x], p) == Filter(s, p) + (if p(x) then [x] else [])
  {
    FilterConcat(s, [x], p);
    assert [x][1..] == [];
  }

  lemma {:induction false} FilterIdempotent<T>(s: seq<T>, p: T -> bool)
    ensures Filter(Filter(s, p), p) == Filter(s, p)
  {
    if s != [] {
      FilterIdempotent(s[1..], p);
      var t := Filter(s[1..], p);
      if p(s[0]) {
        assert ([s[0]] + t)[0] == s[0];
        assert ([s[0]] + t)[1..] == t;
      }
    }
  }

  /** A filter that every element passes keeps the whole sequence. */
  lemma {:induction false} FilterAllPass<T>(s: seq<T>, p: T -> bool)
    requires forall x :: x in s ==> p(x)
    ensures Filter(s, p) == s
  {
    if s != [] {
      assert s[0] in s;
      assert forall x :: x in s[1..] ==> x in s;
      FilterAllPass(s[1..], p);
      assert s == [s[0]] + s[1..];
    }
  }

  // ------------------------------------------------------------------ sums

  /** `s.reduce((acc, x) => acc + f(x), 0)`. */
  function Sum<T>(s: seq<T>, f: T -> int): int
  {
    if s == [] then 0 else f(s[0]) + Sum(s[1..], f)
  }

  lemma {:induction false} SumConcat<T>(a: seq<T>, b: seq<T>, f: T -> int)
    ensures Sum(a + b, f) == Sum(a, f) + Sum(b, f)
  {
    if a == [] {
      assert a + b == b;
    } else {
      assert (a + b)[0] == a[0];
      assert (a + b)[1..] == a[1..] + b;
      SumConcat(a[1..], b, f);
    }
  }

  lemma {:induction false} SumNonNegative<T>(s: seq<T>, f: T -> int)
    requires forall x :: x in s ==> f(x) >= 0
    ensures Sum(s, f) >= 0
  {
    if s != [] {
      assert s[0] in s;
      assert forall x :: x in s[1..] ==> x in s;
      SumNonNegative(s[1..], f);
    }
  }

  /** A sum of positive terms is positive unless there are no terms. */
  lemma {:induction false} SumPositive<T>(s: seq<T>, f: T -> int)
    requires forall x :: x in s ==> f(x) > 0
    ensures Sum(s, f) >= 0
    ensures Sum(s, f) == 0 <==> s == []
  {
    if s != [] {
      assert s[0] in s;
      assert forall x :: x in s[1..] ==> x in s;
      SumPositive(s[1..], f);
    }
  }

  /** Splitting a sequence by a predicate splits its sum. */
  lemma {:induction false} SumFilterPartition<T>(s: seq<T>, p: T -> bool, f: T -> int)
    ensures Sum(s, f) == Sum(Filter(s, p), f) + Sum(Filter(s, Not(p)), f)
  {
    if s != [] {
      SumFilterPartition(s[1..], p, f);
      var a, b := Filter(s[1..], p), Filter(s[1..], Not(p));
      if p(s[0]) {
        assert ([s[0]] + a)[0] == s[0] && ([s[0]] + a)[1..] == a;
      } else {
        assert ([s[0]] + b)[0] == s[0] && ([s[0]] + b)[1..] == b;
      }
    }
  }

  /** With non-negative terms, the sum over a filtered sequence is at most the whole sum. */
  lemma SumFilterAtMost<T>(s: seq<T>, p: T -> bool, f: T -> int)
    requires forall x :: x in s ==> f(x) >= 0
    ensures Sum(Filter(s, p), f) <= Sum(s, f)
  {
    SumFilterPartition(s, p, f);
    SumNonNegative(Filter(s, Not(p)), f);
  }

  /** Sums of pointwise sums. */
  lemma {:induction false} SumAdd<T>(s: seq<T>, f: T -> int, g: T -> int, h: T -> int)
    requires forall x :: x in s ==> h(x) == f(x) + g(x)
    ensures Sum(s, h) == Sum(s, f) + Sum(s, g)
  {
    if s != [] {
      assert s[0] in s;
      assert forall x :: x in s[1..] ==> x in s;
      SumAdd(s[1..], f, g, h);
    }
  }

  /** A sum of zero terms is zero. */
  lemma {:induction false} SumZero<T>(s: seq<T>, f: T -> int)
    requires forall x :: x in s ==> f(x) == 0
    ensures Sum(s, f) == 0
  {
    if s != [] {
      assert s[0] in s;
      assert forall x :: x in s[1..] ==> x in s;
      SumZero(s[1..], f);
    }
  }

  /** The term one key contributes when a single amount is filed under `c`. */
  function Indicator<T(==)>(c: T, amount: int): T -> int
  {
    k => if k == c then amount else 0
  }

  /** Summing an indicator over duplicate-free keys picks the amount out once, or not at all. */
  lemma {:induction false} SumIndicator<T>(keys: seq<T>, c: T, amount: int)
    requires NoDuplicates(keys)
    ensures Sum(keys, Indicator(c, amount)) == if c in keys then amount else 0
  {
    if keys != [] {
      assert keys == [keys[0]] + keys[1..];
      assert NoDuplicates(keys[1..]) by {
        forall i, j | 0 <= i < j < |keys[1..]| ensures keys[1..][i] != keys[1..][j] {
          assert keys[1..][i] == keys[i + 1] && keys[1..][j] == keys[j + 1];
        }
      }
      SumIndicator(keys[1..], c, amount);
      if keys[0] == c {
        assert c !in keys[1..] by {
          forall j | 0 <= j < |keys[1..]| ensures keys[1..][j] != c {
            assert keys[1..][j] == keys[j + 1];
          }
        }
      }
    }
  }

  /** Sums of pointwise equal terms are equal. */
  lemma {:induction false} SumCongruent<T>(s: seq<T>, f: T -> int, g: T -> int)
    requires forall x :: x in s ==> f(x) == g(x)
    ensures Sum(s, f) == Sum(s, g)
  {
    if s != [] {
      assert s[0] in s;
      assert forall x :: x in s[1..] ==> x in s;
      SumCongruent(s[1..], f, g);
    }
  }

  function One<T>(x: T): int { 1 }

  /** Counting is summing ones. */
  lemma {:induction false} SumOne<T>(s: seq<T>)
    ensures Sum(s, One) == |s|
  {
    if s != [] {
      SumOne(s[1..]);
    }
  }

  function KeyIs<T>(key: T -> string, k: string): T -> bool
  {
    x => key(x) == k
  }

  /** The sum of `f` over the elements filed under each key. */
  function KeyTotal<T>(s: seq<T>, key: T -> string, f: T -> int): string -> int
  {
    k => Sum(Filter(s, KeyIs(key, k)), f)
  }

  lemma KeyTotalCons<T>(x: T, s: seq<T>, key: T -> string, f: T -> int, k: string)
    ensures KeyTotal([x] + s, key, f)(k) == (if key(x) == k then f(x) else 0) + KeyTotal(s, key, f)(k)
  {
    assert ([x] + s)[1..] == s;
    var t := Filter(s, KeyIs(key, k));
    assert ([x] + t)[1..] == t;
  }

  /** Filing every element under one of some distinct keys and summing per key
      gives the whole sum: each element is counted under exactly one key. */
  lemma {:induction false} SumByKey<T>(s: seq<T>, key: T -> string, f: T -> int, keys: seq<string>)
    requires NoDuplicates(keys)
    requires forall x :: x in s ==> key(x) in keys
    ensures Sum(keys, KeyTotal(s, key, f)) == Sum(s, f)
  {
    if s == [] {
      SumZero(keys, KeyTotal(s, key, f));
    } else {
      var x, rest := s[0], s[1..];
      assert s == [x] + rest;
      assert x in s;
      assert forall y :: y in rest ==> y in s;
      SumByKey(rest, key, f, keys);
      forall k | k in keys
        ensures KeyTotal(s, key, f)(k) == Indicator(key(x), f(x))(k) + KeyTotal(rest, key, f)(k)
      {
        KeyTotalCons(x, rest, key, f, k);
      }
      SumAdd(keys, Indicator(key(x), f(x)), KeyTotal(rest, key, f), KeyTotal(s, key, f));
      SumIndicator(keys, key(x), f(x));
    }
  }

  // ------------------------------------------------------------ find, map

  /** The index of the first element satisfying `p`, or -1 (`findIndex`). */
  function FindIndex<T>(s: seq<T>, p: T -> bool): (i: int)
    ensures -1 <= i < |s|
    ensures i == -1 <==> forall j :: 0 <= j < |s| ==> !p(s[j])
    ensures i >= 0 ==> p(s[i]) && forall j :: 0 <= j < i ==> !p(s[j])
  {
    if s == [] then -1
    else if p(s[0]) then 0
    else
      var k := FindIndex(s[1..], p);
      if k == -1 then -1 else k + 1
  }

  /** `s.find(p)`: the first element satisfying `p`, if any. */
  function Find<T>(s: seq<T>, p: T -> bool): (r: Option<T>)
    ensures r.None? <==> forall i :: 0 <= i < |s| ==> !p(s[i])
    ensures r.Some? ==> r.value in s && p(r.value)
  {
    var i := FindIndex(s, p);
    if i < 0 then None else Some(s[i])
  }

  /** `s.map(x => key(x) === k ? row : x)`. */
  function ReplaceById<T>(s: seq<T>, key: T -> string, k: string, row: T): (r: seq<T>)
    ensures |r| == |s|
    ensures forall i :: 0 <= i < |s| ==> r[i] == if key(s[i]) == k then row else s[i]
  {
    if s == [] then []
    else [if key(s[0]) == k then row else s[0]] + ReplaceById(s[1..], key, k, row)
  }

  /** A replacement for a key no element has is the identity. */
  lemma ReplaceAbsentId<T>(s: seq<T>, key: T -> string, k: string, row: T)
    requires forall x :: x in s ==> key(x) != k
    ensures ReplaceById(s, key, k, row) == s
  {
    var r := ReplaceById(s, key, k, row);
    forall i | 0 <= i < |s| ensures r[i] == s[i] {
      assert s[i] in s;
    }
  }

  function KeyIsNot<T>(key: T -> string, k: string): T -> bool
  {
    x => key(x) != k
  }

  /** `s.filter(x => key(x) !== k)`: the removal by id every local cache applies. */
  function RemoveById<T>(s: seq<T>, key: T -> string, k: string): (r: seq<T>)
    ensures |r| <= |s|
    ensures forall i :: 0 <= i < |r| ==> key(r[i]) != k && r[i] in s
  {
    Filter(s, KeyIsNot(key, k))
  }

  /** An element survives the removal exactly when it was there and has another id. */
  lemma RemoveByIdExact<T>(s: seq<T>, key: T -> string, k: string, x: T)
    ensures x in RemoveById(s, key, k) <==> x in s && key(x) != k
  {
    if x in s && key(x) != k {
      FilterKeeps(s, KeyIsNot(key, k), x);
    }
  }

  /** The removal keeps the survivors in order: it distributes over concatenation,
      and removing an id nobody has is the identity. */
  lemma RemoveByIdOrder<T>(a: seq<T>, b: seq<T>, key: T -> string, k: string)
    ensures RemoveById(a + b, key, k) == RemoveById(a, key, k) + RemoveById(b, key, k)
    ensures (forall x :: x in a ==> key(x) != k) ==> RemoveById(a, key, k) == a
  {
    FilterConcat(a, b, KeyIsNot(key, k));
    if forall x :: x in a ==> key(x) != k {
      FilterAllPass(a, KeyIsNot(key, k));
    }
  }

  /** `s.reverse()`. */
  function Reverse<T>(s: seq<T>): (r: seq<T>)
    ensures |r| == |s|
    ensures forall i :: 0 <= i < |s| ==> r[i] == s[|s| - 1 - i]
  {
    if s == [] then [] else Reverse(s[1..]) + [s[0]]
  }

  /** `s.map(f)`. */
  function Map<T, U>(s: seq<T>, f: T -> U): (r: seq<U>)
    ensures |r| == |s|
    ensures forall i :: 0 <= i < |s| ==> r[i] == f(s[i])
  {
    if s == [] then [] else [f(s[0])] + Map(s[1..], f)
  }

  lemma {:induction false} MapConcat<T, U>(a: seq<T>, b: seq<T>, f: T -> U)
    ensures Map(a + b, f) == Map(a, f) + Map(b, f)
  {
    var l, r := Map(a + b, f), Map(a, f) + Map(b, f);
    assert |l| == |r|;
    forall i | 0 <= i < |l| ensures l[i] == r[i] {
      if i < |a| { assert (a + b)[i] == a[i]; } else { assert (a + b)[i] == b[i - |a|]; }
    }
  }

  // ---------------------------------------------------------------- strings

  /** `s.includes(t)`: `t` occurs in `s` as a contiguous substring. */
  predicate Contains(s: string, t: string)
    decreases |s|
  {
    t <= s || (|s| > 0 && Contains(s[1..], t))
  }

  /** `includes` finds a term wherever it occurs. */
  lemma {:induction false} ContainsAt(s: string, t: string, i: nat)
    requires i + |t| <= |s| && s[i..i + |t|] == t
    ensures Contains(s, t)
  {
    if i == 0 {
      assert s[..|t|] == t;
    } else {
      assert s[1..][i - 1..i - 1 + |t|] == s[i..i + |t|];
      ContainsAt(s[1..], t, i - 1);
    }
  }

  /** Every occurrence that `includes` reports is at some position. */
  lemma {:induction false} ContainsWitness(s: string, t: string) returns (i: nat)
    requires Contains(s, t)
    ensures i + |t| <= |s| && s[i..i + |t|] == t
  {
    if t <= s {
      i := 0;
    } else {
      var k := ContainsWitness(s[1..], t);
      assert s[1..][k..k + |t|] == s[k + 1..k + 1 + |t|];
      i := k + 1;
    }
  }

  /** JavaScript's `a <= b` on strings: lexicographic order on characters, a
      proper prefix coming first. */
  predicate StringLe(a: string, b: string)
    decreases |a|
  {
    a == [] || (b != [] && (a[0] < b[0] || (a[0] == b[0] && StringLe(a[1..], b[1..]))))
  }

  lemma {:induction false} StringLeTotal(a: string, b: string)
    ensures StringLe(a, b) || StringLe(b, a)
    decreases |a|
  {
    if a != [] && b != [] && a[0] == b[0] {
      StringLeTotal(a[1..], b[1..]);
    }
  }

  lemma {:induction false} StringLeTransitive(a: string, b: string, c: string)
    requires StringLe(a, b) && StringLe(b, c)
    ensures StringLe(a, c)
    decreases |a|
  {
    if a != [] && a[0] == b[0] && b[0] == c[0] {
      StringLeTransitive(a[1..], b[1..], c[1..]);
    }
  }

  lemma {:induction false} StringLeAntisymmetric(a: string, b: string)
    requires StringLe(a, b) && StringLe(b, a)
    ensures a == b
    decreases |a|
  {
    if a != [] {
      StringLeAntisymmetric(a[1..], b[1..]);
      assert a == [a[0]] + a[1..] && b == [b[0]] + b[1..];
    }
  }

  // ---------------------------------------------------------------- sorting

  /** An assumed property of `localeCompare` read as "comes no later than":
      every two strings are ordered, and the order is transitive. */
  ghost predicate TotalPreorder(before: (string, string) -> bool)
  {
    && (forall a, b :: before(a, b) || before(b, a))
    && (forall a, b, c :: before(a, b) && before(b, c) ==> before(a, c))
  }

  predicate SortedBy<T>(s: seq<T>, key: T -> string, before: (string, string) -> bool)
  {
    forall i, j :: 0 <= i < j < |s| ==> before(key(s[i]), key(s[j]))
  }

  /** Insertion of one element into a sorted sequence. */
  function InsertBy<T>(x: T, s: seq<T>, key: T -> string, before: (string, string) -> bool): (r: seq<T>)
    requires TotalPreorder(before) && SortedBy(s, key, before)
    ensures SortedBy(r, key, before)
    ensures multiset(r) == multiset(s) + multiset{x}
    ensures |r| > 0 && (r[0] == x || (|s| > 0 && r[0] == s[0]))
  {
    if s == [] then [x]
    else if before(key(x), key(s[0])) then [x] + s
    else
      assert s == [s[0]] + s[1..];
      var rest := InsertBy(x, s[1..], key, before);
      assert before(key(s[0]), key(rest[0]));
      [s[0]] + rest
  }

  /** `s.sort((a, b) => compare(key(a), key(b)))`: a sorted permutation. */
  function SortBy<T>(s: seq<T>, key: T -> string, before: (string, string) -> bool): (r: seq<T>)
    requires TotalPreorder(before)
    ensures SortedBy(r, key, before)
    ensures multiset(r) == multiset(s)
  {
    if s == [] then []
    else
      assert s == [s[0]] + s[1..];
      InsertBy(s[0], SortBy(s[1..], key, before), key, before)
  }

  // ---------------------------------------------------------- distinctness

  predicate NoDuplicates<T(==)>(s: seq<T>)
  {
    forall i, j :: 0 <= i < j < |s| ==> s[i] != s[j]
  }

  /** Position of the first occurrence of `x` in `s`. */
  function IndexOf<T(==)>(s: seq<T>, x: T): (i: nat)
    requires x in s
    ensures i < |s| && s[i] == x && x !in s[..i]
  {
    if s[0] == x then 0
    else
      assert s == [s[0]] + s[1..];
      var k := IndexOf(s[1..], x);
      assert s[..k + 1] == [s[0]] + s[1..][..k];
      k + 1
  }

  /** `[...new Set(s)]`: each value once, in the order of first occurrence. */
  function Distinct<T(==)>(s: seq<T>): (r: seq<T>)
    ensures NoDuplicates(r)
    ensures forall i :: 0 <= i < |r| ==> r[i] in s
    ensures forall i :: 0 <= i < |s| ==> s[i] in r
  {
    if s == [] then []
    else
      var d := Distinct(s[..|s| - 1]);
      assert s == s[..|s| - 1] + [s[|s| - 1]];
      if s[|s| - 1] in d then d else d + [s[|s| - 1]]
  }

  lemma IndexOfPrefix<T>(s: seq<T>, n: nat, x: T)
    requires n <= |s| && x in s[..n]
    ensures IndexOf(s, x) == IndexOf(s[..n], x)
  {
    var i, k := IndexOf(s, x), IndexOf(s[..n], x);
    assert s[..n][k] == s[k];
  }

  /** The values of `Distinct(s)` appear in the order of their first occurrence in `s`. */
  lemma {:induction false} DistinctOrder<T>(s: seq<T>)
    ensures forall i, j :: 0 <= i < j < |Distinct(s)| ==>
      IndexOf(s, Distinct(s)[i]) < IndexOf(s, Distinct(s)[j])
  {
    if s != [] {
      var n := |s| - 1;
      var front := s[..n];
      var d := Distinct(front);
      DistinctOrder(front);
      forall y | y in d ensures IndexOf(s, y) == IndexOf(front, y) && IndexOf(s, y) < n {
        IndexOfPrefix(s, n, y);
      }
      if s[n] !in d {
        assert s[n] !in front;
        assert s[..n + 1] == s;
        assert IndexOf(s, s[n]) == n;
        var r := d + [s[n]];
        forall i, j | 0 <= i < j < |r| ensures IndexOf(s, r[i]) < IndexOf(s, r[j]) {
          assert r[i] in d;
          if j < |d| { assert r[j] in d; }
        }
      }
    }
  }

  lemma {:induction false} DistinctSnoc<T>(s: seq<T>, x: T)
    ensures Distinct(s + [x]) == if x in s then Distinct(s) else Distinct(s) + [x]
  {
    assert (s + [x])[..|s + [x]| - 1] == s;
  }

  /** Filtering after removing duplicates is removing duplicates after filtering. */
  lemma {:induction false} DistinctFilterCommute<T>(s: seq<T>, p: T -> bool)
    ensures Filter(Distinct(s), p) == Distinct(Filter(s, p))
  {
    if s != [] {
      var n := |s| - 1;
      var front, x := s[..n], s[n];
      assert s == front + [x];
      DistinctFilterCommute(front, p);
      DistinctSnoc(front, x);
      FilterConcat(front, [x], p);
      assert Filter([x], p) == if p(x) then [x] else [] by {
        assert [x][1..] == [];
      }
      if x !in front {
        FilterConcat(Distinct(front), [x], p);
      }
      if p(x) {
        if x in front {
          FilterKeeps(front, p, x);
        }
        DistinctSnoc(Filter(front, p), x);
      } else {
        assert Filter(front, p) + [] == Filter(front, p);
      }
    }
  }

  /** The position of a value's first occurrence, as a ranking (-1 when absent). */
  function RankIn<T(==)>(s: seq<T>): T -> int
  {
    x => if x in s then IndexOf(s, x) as int else -1
  }

  /** Filtering `Distinct(s)` keeps its first-occurrence order. */
  lemma DistinctFilterOrder<T>(s: seq<T>, p: T -> bool)
    ensures forall i, j :: 0 <= i < j < |Filter(Distinct(s), p)| ==>
      IndexOf(s, Filter(Distinct(s), p)[i]) < IndexOf(s, Filter(Distinct(s), p)[j])
  {
    var d := Distinct(s);
    DistinctOrder(s);
    FilterKeepsOrder(d, p, RankIn(s));
    var r := Filter(d, p);
    forall i, j | 0 <= i < j < |r| ensures IndexOf(s, r[i]) < IndexOf(s, r[j]) {
      assert RankIn(s)(r[i]) < RankIn(s)(r[j]);
    }
  }
}
