/** Shared vocabulary: optional values, results, and integer sums over sequences. */
module Prelude {

  datatype Option<+T> = None | Some(value: T)

  datatype Result<+R, +E> = Success(value: R) | Failure(error: E)

  function Max(a: int, b: int): int {
    if a >= b then a else b
  }

  /** The value `f` gives to an optional element; an absent one weighs nothing. */
  ghost function Weigh<T(!new)>(x: Option<T>, f: T -> int): int {
    if x.Some? then f(x.value) else 0
  }

  ghost function Sum<T(!new)>(s: seq<T>, f: T -> int): int {
    if s == [] then 0 else f(s[0]) + Sum(s[1..], f)
  }

  lemma {:induction false} SumConcat<T(!new)>(a: seq<T>, b: seq<T>, f: T -> int)
    ensures Sum(a + b, f) == Sum(a, f) + Sum(b, f)
  {
    if a == [] {
      assert a + b == b;
    } else {
      assert (a + b)[1..] == a[1..] + b;
      SumConcat(a[1..], b, f);
    }
  }

  lemma SumOne<T(!new)>(x: T, f: T -> int)
    ensures Sum([x], f) == f(x)
  {
    assert [x][1..] == [];
  }

  function Singleton<T>(x: Option<T>): seq<T> {
    if x.Some? then [x.value] else []
  }

  lemma SumSingleton<T(!new)>(x: Option<T>, f: T -> int)
    ensures Sum(Singleton(x), f) == Weigh(x, f)
  {
    if x.Some? { SumOne(x.value, f); }
  }

  /** The sequence with the element at `i` replaced by `put`, or taken out. */
  function Splice<T>(s: seq<T>, i: nat, put: Option<T>): (r: seq<T>)
    requires i < |s|
  {
    s[..i] + Singleton(put) + s[i + 1..]
  }

  lemma SumMiddle<T(!new)>(a: seq<T>, m: seq<T>, b: seq<T>, f: T -> int)
    ensures Sum(a + m + b, f) == Sum(a, f) + Sum(m, f) + Sum(b, f)
  {
    SumConcat(a + m, b, f);
    SumConcat(a, m, f);
  }

  lemma SplitAt<T>(s: seq<T>, i: nat)
    requires i < |s|
    ensures s == s[..i] + [s[i]] + s[i + 1..]
  {
  }

  lemma SumAround<T(!new)>(s: seq<T>, i: nat, f: T -> int)
    requires i < |s|
    ensures Sum(s, f) == Sum(s[..i], f) + f(s[i]) + Sum(s[i + 1..], f)
  {
    SplitAt(s, i);
    SumMiddle(s[..i], [s[i]], s[i + 1..], f);
    SumOne(s[i], f);
  }

  lemma SumSplice<T(!new)>(s: seq<T>, i: nat, put: Option<T>, f: T -> int)
    requires i < |s|
    ensures Sum(Splice(s, i, put), f) == Sum(s, f) - f(s[i]) + Weigh(put, f)
  {
    SumAround(s, i, f);
    SumMiddle(s[..i], Singleton(put), s[i + 1..], f);
    SumSingleton(put, f);
  }

  lemma {:induction false} SumBetween<T(!new)>(s: seq<T>, f: T -> int, g: T -> int)
    requires forall x :: x in s ==> f(x) <= g(x)
    ensures Sum(s, f) <= Sum(s, g)
  {
    if s != [] {
      assert s[0] in s;
      assert forall x :: x in s[1..] ==> x in s;
      SumBetween(s[1..], f, g);
    }
  }

  lemma {:induction false} SumNonNegative<T(!new)>(s: seq<T>, f: T -> int)
    requires forall x :: x in s ==> f(x) >= 0
    ensures Sum(s, f) >= 0
  {
    if s != [] {
      assert s[0] in s;
      assert forall x :: x in s[1..] ==> x in s;
      SumNonNegative(s[1..], f);
    }
  }

  /** No single element of a non-negative sum outweighs the sum. */
  lemma SumDominates<T(!new)>(s: seq<T>, i: nat, f: T -> int)
    requires i < |s|
    requires forall x :: x in s ==> f(x) >= 0
    ensures f(s[i]) <= Sum(s, f)
  {
    SumSplice(s, i, None, f);
    var rest := Splice(s, i, None);
    assert forall x :: x in rest ==> x in s;
    SumNonNegative(rest, f);
  }

  /** A positive sum has a positive element. */
  lemma {:induction false} SumWitness<T(!new)>(s: seq<T>, f: T -> int) returns (i: nat)
    requires Sum(s, f) > 0
    ensures i < |s| && f(s[i]) > 0
  {
    if f(s[0]) > 0 {
      i := 0;
    } else {
      var j := SumWitness(s[1..], f);
      i := j + 1;
    }
  }

  lemma {:induction false} SumCombine<T(!new)>(s: seq<T>, h: T -> int, f: T -> int, g: T -> int, k: T -> int)
    requires forall x :: x in s ==> h(x) == f(x) - g(x) - k(x)
    ensures Sum(s, h) == Sum(s, f) - Sum(s, g) - Sum(s, k)
  {
    if s != [] {
      assert s[0] in s;
      assert forall x :: x in s[1..] ==> x in s;
      SumCombine(s[1..], h, f, g, k);
    }
  }

  lemma {:induction false} SumNone<T(!new)>(s: seq<T>, f: T -> int)
    requires forall x :: x in s ==> f(x) == 0
    ensures Sum(s, f) == 0
  {
    if s != [] {
      assert s[0] in s;
      assert forall x :: x in s[1..] ==> x in s;
      SumNone(s[1..], f);
    }
  }

  /** `f` weighs `k` what `g` counts, and nothing else. */
  ghost predicate Marks<T(!new)>(f: T -> int, g: T -> int, k: int, x: T) {
    (g(x) == 0 && f(x) == 0) || (g(x) == 1 && f(x) == k)
  }

  lemma {:induction false} SumMarked<T(!new)>(s: seq<T>, f: T -> int, g: T -> int, k: int)
    requires forall x :: x in s ==> Marks(f, g, k, x)
    ensures Sum(s, f) == k * Sum(s, g)
  {
    if s != [] {
      assert s[0] in s && Marks(f, g, k, s[0]);
      assert forall x :: x in s[1..] ==> x in s;
      SumMarked(s[1..], f, g, k);
      var rest := Sum(s[1..], g);
      assert k * (1 + rest) == k + k * rest;
    }
  }

  /** A non-negative sum that is zero has only zeros. */
  lemma SumZero<T(!new)>(s: seq<T>, f: T -> int)
    requires Sum(s, f) == 0
    requires forall x :: x in s ==> f(x) >= 0
    ensures forall x :: x in s ==> f(x) == 0
  {
    forall x | x in s ensures f(x) == 0 {
      var i :| 0 <= i < |s| && s[i] == x;
      SumDominates(s, i, f);
    }
  }
}
