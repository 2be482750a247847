/** Order-preserving filtering, the shape of every `Array.prototype.filter`
    call in the modelled code. */
module Seqs {
  import opened Wrappers

  /** `r` is `s` with some elements left out and the rest in their order. */
  predicate SubsequenceOf<T(==)>(r: seq<T>, s: seq<T>)
    decreases |s|
  {
    if |r| == 0 then true
    else if |s| == 0 then false
    else (r[0] == s[0] && SubsequenceOf(r[1..], s[1..])) || SubsequenceOf(r, s[1..])
  }

  lemma {:induction false} SubsequenceOfSelf<T>(s: seq<T>)
    ensures SubsequenceOf(s, s)
    decreases |s|
  {
    if |s| > 0 {
      SubsequenceOfSelf(s[1..]);
    }
  }

  /** `s.filter(p)`. */
  function Filter<T(==,!new)>(s: seq<T>, p: T -> bool): (r: seq<T>)
    ensures |r| <= |s|
    ensures forall x :: x in r <==> x in s && p(x)
    ensures SubsequenceOf(r, s)
    ensures (forall i :: 0 <= i < |s| ==> p(s[i])) ==> r == s
    decreases |s|
  {
    if |s| == 0 then []
    else
      var rest := Filter(s[1..], p);
      if p(s[0]) then [s[0]] + rest else rest
  }

  /** Filtering splits a sequence: what a predicate keeps plus what its
      negation keeps is everything. */
  lemma {:induction false} FilterComplement<T(!new)>(s: seq<T>, p: T -> bool)
    ensures |Filter(s, p)| + |Filter(s, x => !p(x))| == |s|
    decreases |s|
  {
    if |s| > 0 {
      FilterComplement(s[1..], p);
    }
  }

  /** Every element of a sequence has a place in the filter's output order. */
  lemma {:induction false} FilterAppend<T(!new)>(a: seq<T>, b: seq<T>, p: T -> bool)
    ensures Filter(a + b, p) == Filter(a, p) + Filter(b, p)
    decreases |a|
  {
    if |a| > 0 {
      var rest := Filter(a[1..], p);
      assert (a + b)[0] == a[0] && (a + b)[1..] == a[1..] + b;
      FilterAppend(a[1..], b, p);
      if p(a[0]) {
        assert [a[0]] + (rest + Filter(b, p)) == ([a[0]] + rest) + Filter(b, p);
      }
    } else {
      assert a + b == b;
    }
  }

  /** `s.map(f)`. */
  function Map<T, U>(s: seq<T>, f: T -> U): (r: seq<U>)
    ensures |r| == |s| && forall i :: 0 <= i < |s| ==> r[i] == f(s[i])
  {
    seq(|s|, i requires 0 <= i < |s| => f(s[i]))
  }

  /** Mapping a sequence with an element in front puts its image in front. */
  lemma MapCons<T, U>(x: T, t: seq<T>, f: T -> U)
    ensures Map([x] + t, f) == [f(x)] + Map(t, f)
  {
    var a, b := Map([x] + t, f), [f(x)] + Map(t, f);
    forall j | 0 <= j < |a|
      ensures a[j] == b[j]
    {
      if j > 0 {
        assert ([x] + t)[j] == t[j - 1];
      }
    }
  }

  /** Mapping one more element appends its image. */
  lemma MapStep<T, U>(s: seq<T>, f: T -> U, k: nat)
    requires k < |s|
    ensures Map(s[..k + 1], f) == Map(s[..k], f) + [f(s[k])]
  {
    var a, b := Map(s[..k + 1], f), Map(s[..k], f) + [f(s[k])];
    forall j | 0 <= j < |a|
      ensures a[j] == b[j]
    {
      assert s[..k + 1][j] == if j < k then s[..k][j] else s[k];
    }
  }

  /** `s.findIndex(p)`: the first index satisfying `p`, or -1. */
  function FindIndex<T>(s: seq<T>, p: T -> bool): (r: int)
    ensures -1 <= r < |s|
    ensures r == -1 <==> forall i :: 0 <= i < |s| ==> !p(s[i])
    ensures r >= 0 ==> p(s[r]) && forall i :: 0 <= i < r ==> !p(s[i])
    decreases |s|
  {
    if |s| == 0 then -1
    else if p(s[0]) then 0
    else
      var k := FindIndex(s[1..], p);
      if k == -1 then -1 else k + 1
  }

  /** `s.find(p)`: the first element satisfying `p`. */
  function FirstWhere<T>(s: seq<T>, p: T -> bool): (r: Option<T>)
    ensures r.None? <==> forall i :: 0 <= i < |s| ==> !p(s[i])
    ensures r.Some? ==> exists k :: (0 <= k < |s| && s[k] == r.value && p(s[k])
                                     && forall j :: 0 <= j < k ==> !p(s[j]))
  {
    var k := FindIndex(s, p);
    if k == -1 then None else Some(s[k])
  }

  /** The first element satisfying `p` is found at the first index where
      `p` holds. */
  lemma FirstWhereAt<T>(s: seq<T>, p: T -> bool, j: nat)
    requires j < |s| && p(s[j]) && forall i :: 0 <= i < j ==> !p(s[i])
    ensures FirstWhere(s, p) == Some(s[j])
  {
  }

  /** Searching the elements that pass a filter is searching for the
      first element that passes both tests. */
  lemma {:induction false} FirstWhereFilter<T(!new)>(s: seq<T>, a: T -> bool, b: T -> bool)
    ensures FirstWhere(Filter(s, a), b) == FirstWhere(s, x => a(x) && b(x))
    decreases |s|
  {
    var both := x => a(x) && b(x);
    if |s| > 0 {
      var rest := Filter(s[1..], a);
      if a(s[0]) {
        assert Filter(s, a) == [s[0]] + rest;
        if b(s[0]) {
          FirstWhereAt(Filter(s, a), b, 0);
          FirstWhereAt(s, both, 0);
        } else {
          FirstWhereFilter(s[1..], a, b);
          assert ([s[0]] + rest)[1..] == rest;
          FirstWhereSkip([s[0]] + rest, b);
          FirstWhereSkip(s, both);
        }
      } else {
        FirstWhereFilter(s[1..], a, b);
        FirstWhereSkip(s, both);
      }
    }
  }

  /** An element that fails the test is passed over. */
  lemma FirstWhereSkip<T>(s: seq<T>, p: T -> bool)
    requires |s| > 0 && !p(s[0])
    ensures FirstWhere(s, p) == FirstWhere(s[1..], p)
  {
  }

  /** `s.map(f)` keeping only the defined results, in order. */
  function Collect<T, U>(s: seq<T>, f: T -> Option<U>): (r: seq<U>)
    ensures |r| <= |s|
    ensures forall u :: u in r ==> exists i :: 0 <= i < |s| && f(s[i]) == Some(u)
    decreases |s|
  {
    if |s| == 0 then []
    else
      var rest := Collect(s[..|s| - 1], f);
      match f(s[|s| - 1])
      case None => rest
      case Some(u) => rest + [u]
  }

  /** Collecting over a concatenation collects each part in turn. */
  lemma {:induction false} CollectAppend<T, U>(a: seq<T>, b: seq<T>, f: T -> Option<U>)
    ensures Collect(a + b, f) == Collect(a, f) + Collect(b, f)
    decreases |b|
  {
    if |b| == 0 {
      assert a + b == a;
    } else {
      assert (a + b)[..|a + b| - 1] == a + b[..|b| - 1];
      CollectAppend(a, b[..|b| - 1], f);
    }
  }

  /** Every defined result is collected. */
  lemma {:induction false} CollectKeeps<T, U>(s: seq<T>, f: T -> Option<U>, j: nat)
    requires j < |s| && f(s[j]).Some?
    ensures f(s[j]).value in Collect(s, f)
    decreases |s|
  {
    if j < |s| - 1 {
      assert s[..|s| - 1][j] == s[j];
      CollectKeeps(s[..|s| - 1], f, j);
    }
  }

  /** Nothing is collected where `f` is nowhere defined. */
  lemma {:induction false} CollectNothing<T, U>(s: seq<T>, f: T -> Option<U>)
    requires forall i :: 0 <= i < |s| ==> f(s[i]).None?
    ensures Collect(s, f) == []
    decreases |s|
  {
    if |s| > 0 {
      CollectNothing(s[..|s| - 1], f);
    }
  }

  /** `s.slice(0, n)`: the first `n` elements, or all of them. On a
      string this counts characters, not UTF-16 code units. */
  function FirstN<T>(s: seq<T>, n: nat): (r: seq<T>)
    ensures |r| == if n < |s| then n else |s|
    ensures r <= s
  {
    if n < |s| then s[..n] else s
  }

  /** `s.flatMap(f)`: the results of `f`, concatenated in order. */
  function FlatMap<T, U>(s: seq<T>, f: T -> seq<U>): (r: seq<U>)
    ensures forall u :: u in r ==> exists i :: 0 <= i < |s| && u in f(s[i])
    decreases |s|
  {
    if |s| == 0 then [] else FlatMap(s[..|s| - 1], f) + f(s[|s| - 1])
  }

  lemma {:induction false} FlatMapAppend<T, U>(a: seq<T>, b: seq<T>, f: T -> seq<U>)
    ensures FlatMap(a + b, f) == FlatMap(a, f) + FlatMap(b, f)
    decreases |b|
  {
    if |b| == 0 {
      assert a + b == a;
    } else {
      assert (a + b)[..|a + b| - 1] == a + b[..|b| - 1];
      FlatMapAppend(a, b[..|b| - 1], f);
    }
  }

  /** `s.map(f)` where `f` may throw: every result, or the first error. */
  function MapAll<T, U, E>(s: seq<T>, f: T -> Result<U, E>): (r: Result<seq<U>, E>)
    ensures r.Ok? <==> forall i :: 0 <= i < |s| ==> f(s[i]).Ok?
    ensures r.Ok? ==> |r.value| == |s| && forall i :: 0 <= i < |s| ==> f(s[i]) == Ok(r.value[i])
    ensures r.Err? ==> exists i :: (0 <= i < |s| && f(s[i]) == Err(r.error)
                                    && forall j :: 0 <= j < i ==> f(s[j]).Ok?)
  {
    var k := FindIndex(s, (x: T) => f(x).Err?);
    if k == -1 then Ok(seq(|s|, i requires 0 <= i < |s| => f(s[i]).value))
    else Err(f(s[k]).error)
  }

  /** Writing the next target element into a sequence whose front is
      already the target's moves the boundary one step. */
  lemma StepPrefix<T>(target: seq<T>, original: seq<T>, i: nat)
    requires |target| == |original| && i < |original|
    ensures (target[..i] + original[i..])[i := target[i]] == target[..i + 1] + original[i + 1..]
  {
    var a := (target[..i] + original[i..])[i := target[i]];
    var b := target[..i + 1] + original[i + 1..];
    assert |a| == |b|;
    forall k | 0 <= k < |a|
      ensures a[k] == b[k]
    {
    }
  }

  /** Taking the head off the front of a concatenation. */
  lemma HeadSplit<T>(p: seq<T>, t: seq<T>)
    requires |p| > 0
    ensures p + t == [p[0]] + (p[1..] + t)
  {
    assert p == [p[0]] + p[1..];
  }

  /** A sequence of three or more is its first three elements and the rest. */
  lemma FrontThree<T>(s: seq<T>)
    requires |s| >= 3
    ensures s == [s[0], s[1], s[2]] + s[3..]
  {
    assert s[..3] == [s[0], s[1], s[2]];
    assert s == s[..3] + s[3..];
  }

  /** Two sequences joined, regrouped around the last element of the
      first and the first of the second; likewise with `h` put between. */
  lemma JoinAround<T>(a: seq<T>, b: seq<T>, h: T)
    requires |a| >= 1 && |b| >= 1
    ensures a + b == a[..|a| - 1] + ([a[|a| - 1], b[0]] + b[1..])
    ensures a + [h] + b == a[..|a| - 1] + ([a[|a| - 1], h, b[0]] + b[1..])
  {
    assert a == a[..|a| - 1] + [a[|a| - 1]];
    assert b == [b[0]] + b[1..];
  }

  /** A function that does not change from one index to the next has the
      same value at both ends of the run. */
  lemma {:induction false} ConstantRun<T>(f: nat -> T, i: nat, k: nat)
    requires i <= k && forall x: nat :: i <= x < k ==> f(x) == f(x + 1)
    ensures f(i) == f(k)
    decreases k - i
  {
    if i < k {
      ConstantRun(f, i + 1, k);
    }
  }

  lemma UpdateSame<T>(s: seq<T>, i: nat)
    requires i < |s|
    ensures s[i := s[i]] == s
  {
  }
}
