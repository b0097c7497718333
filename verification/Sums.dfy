// Sums over sequences, and that they do not depend on the order of the terms.
module Sums {

  function Sum<T>(xs: seq<T>, w: T -> real): real {
    if xs == [] then 0.0 else w(xs[0]) + Sum(xs[1..], w)
  }

  function Total<T>(xs: seq<T>, w: T -> int): int {
    if xs == [] then 0 else w(xs[0]) + Total(xs[1..], w)
  }

  lemma {:induction false} SumConcat<T>(a: seq<T>, b: seq<T>, w: T -> real)
    ensures Sum(a + b, w) == Sum(a, w) + Sum(b, w)
  {
    if a == [] {
      assert a + b == b;
    } else {
      assert (a + b)[1..] == a[1..] + b;
      SumConcat(a[1..], b, w);
    }
  }

  lemma {:induction false} TotalConcat<T>(a: seq<T>, b: seq<T>, w: T -> int)
    ensures Total(a + b, w) == Total(a, w) + Total(b, w)
  {
    if a == [] {
      assert a + b == b;
    } else {
      assert (a + b)[1..] == a[1..] + b;
      TotalConcat(a[1..], b, w);
    }
  }

  lemma SumPick<T>(b: seq<T>, i: nat, w: T -> real)
    requires i < |b|
    ensures Sum(b, w) == w(b[i]) + Sum(b[..i] + b[i + 1..], w)
  {
    assert b == b[..i] + b[i..];
    SumConcat(b[..i], b[i..], w);
    SumConcat(b[..i], b[i + 1..], w);
  }

  lemma TotalPick<T>(b: seq<T>, i: nat, w: T -> int)
    requires i < |b|
    ensures Total(b, w) == w(b[i]) + Total(b[..i] + b[i + 1..], w)
  {
    assert b == b[..i] + b[i..];
    TotalConcat(b[..i], b[i..], w);
    TotalConcat(b[..i], b[i + 1..], w);
  }

  // Taking the same element out of two equal bags leaves equal bags.
  lemma SameRest<T>(a: seq<T>, b: seq<T>, i: nat)
    requires a != [] && i < |b| && b[i] == a[0] && multiset(a) == multiset(b)
    ensures multiset(a[1..]) == multiset(b[..i] + b[i + 1..])
  {
    assert a == [a[0]] + a[1..];
    assert b == b[..i] + ([b[i]] + b[i + 1..]);
    assert multiset(a[1..]) == multiset(a) - multiset{a[0]};
    assert multiset(b[..i] + b[i + 1..]) == multiset(b) - multiset{b[i]};
  }

  lemma {:induction false} SumPermute<T>(a: seq<T>, b: seq<T>, w: T -> real)
    requires multiset(a) == multiset(b)
    ensures Sum(a, w) == Sum(b, w)
    decreases |a|
  {
    if a == [] {
      assert |multiset(b)| == 0;
    } else {
      assert a[0] in multiset(b);
      var i :| 0 <= i < |b| && b[i] == a[0];
      SameRest(a, b, i);
      SumPermute(a[1..], b[..i] + b[i + 1..], w);
      SumPick(b, i, w);
    }
  }

  lemma {:induction false} TotalPermute<T>(a: seq<T>, b: seq<T>, w: T -> int)
    requires multiset(a) == multiset(b)
    ensures Total(a, w) == Total(b, w)
    decreases |a|
  {
    if a == [] {
      assert |multiset(b)| == 0;
    } else {
      assert a[0] in multiset(b);
      var i :| 0 <= i < |b| && b[i] == a[0];
      SameRest(a, b, i);
      TotalPermute(a[1..], b[..i] + b[i + 1..], w);
      TotalPick(b, i, w);
    }
  }
}
