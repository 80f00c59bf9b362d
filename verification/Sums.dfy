/** Sums over sequences and over maps, and how they move under one update. */
module Sums {
  function Sum<T>(s: seq<T>, f: T -> nat): nat {
    if s == [] then 0 else Sum(s[..|s| - 1], f) + f(s[|s| - 1])
  }

  lemma SumAppend<T>(s: seq<T>, x: T, f: T -> nat)
    ensures Sum(s + [x], f) == Sum(s, f) + f(x)
  {
    assert (s + [x])[..|s|] == s;
  }

  lemma {:induction false} SumConcat<T>(s: seq<T>, t: seq<T>, f: T -> nat)
    ensures Sum(s + t, f) == Sum(s, f) + Sum(t, f)
  {
    if t == [] {
      assert s + t == s;
    } else {
      var n := |t| - 1;
      SumConcat(s, t[..n], f);
      assert s + t == (s + t[..n]) + [t[n]];
      SumAppend(s + t[..n], t[n], f);
    }
  }

  lemma SumSingle<T>(x: T, f: T -> nat)
    ensures Sum([x], f) == f(x)
  {
    assert [] + [x] == [x];
    SumAppend([], x, f);
  }

  lemma Around<T>(s: seq<T>, i: nat)
    requires i < |s|
    ensures s[..i] + ([s[i]] + s[i + 1..]) == s
  {}

  /** The sum around one entry. */
  lemma SumAround<T>(before: seq<T>, x: T, after: seq<T>, f: T -> nat)
    ensures Sum(before + ([x] + after), f) == Sum(before, f) + f(x) + Sum(after, f)
  {
    SumConcat(before, [x] + after, f);
    SumConcat([x], after, f);
    SumSingle(x, f);
  }

  lemma SumSplit<T>(s: seq<T>, i: nat, f: T -> nat)
    requires i < |s|
    ensures Sum(s, f) == Sum(s[..i], f) + f(s[i]) + Sum(s[i + 1..], f)
  {
    SumAround(s[..i], s[i], s[i + 1..], f);
    Around(s, i);
  }

  lemma SumUpdate<T>(s: seq<T>, i: nat, x: T, f: T -> nat)
    requires i < |s|
    ensures Sum(s[i := x], f) + f(s[i]) == Sum(s, f) + f(x)
  {
    SumSplit(s, i, f);
    SumSplit(s[i := x], i, f);
    assert s[i := x][..i] == s[..i] && s[i := x][i + 1..] == s[i + 1..];
  }

  function Without<T>(s: seq<T>, i: nat): seq<T>
    requires i < |s|
  {
    s[..i] + s[i + 1..]
  }

  lemma SumWithout<T>(s: seq<T>, i: nat, f: T -> nat)
    requires i < |s|
    ensures Sum(Without(s, i), f) + f(s[i]) == Sum(s, f)
  {
    SumSplit(s, i, f);
    SumConcat(s[..i], s[i + 1..], f);
  }

  lemma {:induction false} SumBound<T>(s: seq<T>, f: T -> nat, g: T -> nat)
    requires forall i :: 0 <= i < |s| ==> f(s[i]) <= g(s[i])
    ensures Sum(s, f) <= Sum(s, g)
  {
    if s != [] {
      SumBound(s[..|s| - 1], f, g);
    }
  }

  /** One entry is at most the whole. */
  lemma SumAtLeast<T>(s: seq<T>, i: nat, f: T -> nat)
    requires i < |s|
    ensures f(s[i]) <= Sum(s, f)
  {
    SumWithout(s, i, f);
  }

  lemma {:induction false} SumZero<T>(s: seq<T>, f: T -> nat)
    requires forall i :: 0 <= i < |s| ==> f(s[i]) == 0
    ensures Sum(s, f) == 0
  {
    if s != [] {
      SumZero(s[..|s| - 1], f);
    }
  }
}
