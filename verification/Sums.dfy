/** Weighted sums over a sequence: the counting arguments of the pool and of the search index rest on these lemmas. */
module Sums {

  ghost function Sum<T>(ts: seq<T>, f: T -> nat): nat {
    if ts == [] then 0 else Sum(ts[..|ts| - 1], f) + f(ts[|ts| - 1])
  }

  lemma {:induction false} SumUpdate<T>(ts: seq<T>, f: T -> nat, i: nat, t: T)
    requires i < |ts|
    ensures Sum(ts[i := t], f) + f(ts[i]) == Sum(ts, f) + f(t)
    ensures f(ts[i]) <= Sum(ts, f)
  {
    var n := |ts| - 1;
    if i < n {
      SumUpdate(ts[..n], f, i, t);
      assert ts[i := t][..n] == ts[..n][i := t];
    } else {
      assert ts[i := t][..n] == ts[..n];
    }
  }

  lemma {:induction false} SumAppend<T>(ts: seq<T>, f: T -> nat, t: T)
    ensures Sum(ts + [t], f) == Sum(ts, f) + f(t)
  {
    assert (ts + [t])[..|ts|] == ts;
  }

  lemma {:induction false} SumSame<T>(ts: seq<T>, us: seq<T>, f: T -> nat)
    requires |ts| == |us| && forall i :: 0 <= i < |ts| ==> f(ts[i]) == f(us[i])
    ensures Sum(ts, f) == Sum(us, f)
  {
    if ts != [] {
      SumSame(ts[..|ts| - 1], us[..|us| - 1], f);
    }
  }

  /** A positive sum has a positive summand. */
  lemma {:induction false} PositiveSummand<T>(ts: seq<T>, f: T -> nat) returns (i: nat)
    requires Sum(ts, f) > 0
    ensures i < |ts| && f(ts[i]) > 0
  {
    i := |ts| - 1;
    if f(ts[i]) == 0 {
      i := PositiveSummand(ts[..i], f);
    }
  }

  /** Where `f` dominates `g`, every summand's surplus shows in the sums. */
  lemma {:induction false} SumSurplus<T>(ts: seq<T>, f: T -> nat, g: T -> nat, i: nat)
    requires i < |ts| && forall t :: t in ts ==> f(t) >= g(t)
    ensures Sum(ts, f) - Sum(ts, g) >= f(ts[i]) - g(ts[i])
  {
    var n := |ts| - 1;
    if i < n { SumSurplus(ts[..n], f, g, i); } else if n > 0 { SumSurplus(ts[..n], f, g, 0); }
  }
}
