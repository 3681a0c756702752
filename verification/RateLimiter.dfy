/**
 The token bucket of src/backend/mod.rs: calls take a permit for good, and a task reads the number of permits and
 adds what is missing.  Reading and adding are two steps, with calls in between.
 */
module RateLimiter {

  /** `toAdd` is what the task has read to be missing and not added yet; `refills` counts the additions. */
  datatype State = State(max: nat, available: nat, reading: bool, toAdd: nat,
                         admitted: nat, replenished: nat, refills: nat)

  datatype Action = Call | Read | Add

  predicate Enabled(s: State, a: Action) { if a.Read? then !s.reading else a.Add? ==> s.reading }

  function Missing(max: nat, available: nat): nat { if available <= max then max - available else 0 }

  function Next(s: State, a: Action): State
    requires Enabled(s, a)
  {
    match a
    case Call => if s.available > 0 then s.(available := s.available - 1, admitted := s.admitted + 1) else s
    case Read => s.(reading := true, toAdd := Missing(s.max, s.available))
    case Add =>
      s.(reading := false, toAdd := 0, available := s.available + s.toAdd,
         replenished := s.replenished + s.toAdd, refills := s.refills + 1)
  }

  function Initial(max: nat): State { State(max, max, false, 0, 0, 0, 0) }

  ghost predicate Run(max: nat, r: seq<State>, acts: seq<Action>) {
    && |r| == |acts| + 1 && r[0] == Initial(max)
    && forall i :: 0 <= i < |acts| ==> Enabled(r[i], acts[i]) && r[i + 1] == Next(r[i], acts[i])
  }

  /** Never more than `max` permits, and none appears or vanishes unaccounted. */
  lemma {:induction false} PermitsConserved(max: nat, r: seq<State>, acts: seq<Action>, i: nat)
    requires Run(max, r, acts) && i < |r|
    ensures r[i].max == max && r[i].available + r[i].toAdd <= max
    ensures r[i].available + r[i].admitted == max + r[i].replenished
  {
    if i > 0 {
      PermitsConserved(max, r, acts, i - 1);
      assert Enabled(r[i - 1], acts[i - 1]);
    }
  }

  lemma {:induction false} RefillsBounded(max: nat, r: seq<State>, acts: seq<Action>, i: nat, j: nat)
    requires Run(max, r, acts) && i <= j < |r|
    ensures r[i].refills <= r[j].refills
    ensures r[j].replenished - r[i].replenished <= max * (r[j].refills - r[i].refills)
  {
    if i < j {
      RefillsBounded(max, r, acts, i, j - 1);
      PermitsConserved(max, r, acts, j - 1);
      assert Enabled(r[j - 1], acts[j - 1]);
      OneMore(max, r[j - 1].refills - r[i].refills);
    }
  }

  lemma OneMore(max: nat, k: nat)
    ensures max * (k + 1) == max * k + max
  {
  }

  /** Over any stretch of a run, calls admitted are at most `max` times one more than the refills in it. */
  lemma AdmissionBound(max: nat, r: seq<State>, acts: seq<Action>, i: nat, j: nat)
    requires Run(max, r, acts) && i <= j < |r|
    ensures r[i].refills <= r[j].refills
    ensures r[j].admitted - r[i].admitted <= max * (r[j].refills - r[i].refills + 1)
  {
    PermitsConserved(max, r, acts, i);
    PermitsConserved(max, r, acts, j);
    RefillsBounded(max, r, acts, i, j);
    OneMore(max, r[j].refills - r[i].refills);
  }

  // ---- Calls let through, and refills, counted off the run ----

  /** Of the calls made from step i up to step j, those that found a permit. */
  function Passed(r: seq<State>, acts: seq<Action>, i: nat, j: nat): nat
    requires i <= j <= |acts| && |r| == |acts| + 1
    decreases j
  {
    if i == j then 0 else Passed(r, acts, i, j - 1) + if acts[j - 1].Call? && r[j - 1].available > 0 then 1 else 0
  }

  function Adds(acts: seq<Action>, i: nat, j: nat): nat
    requires i <= j <= |acts|
    decreases j
  {
    if i == j then 0 else Adds(acts, i, j - 1) + if acts[j - 1].Add? then 1 else 0
  }

  lemma {:induction false} CountedOff(max: nat, r: seq<State>, acts: seq<Action>, i: nat, j: nat)
    requires Run(max, r, acts) && i <= j <= |acts|
    ensures r[j].admitted == r[i].admitted + Passed(r, acts, i, j)
    ensures r[j].refills == r[i].refills + Adds(acts, i, j)
    decreases j
  {
    if i < j {
      CountedOff(max, r, acts, i, j - 1);
      assert Enabled(r[j - 1], acts[j - 1]);
    }
  }

  /** Over any stretch of a run, the calls let through are at most `max` times one more than the refills in it. */
  lemma PassedBound(max: nat, r: seq<State>, acts: seq<Action>, i: nat, j: nat)
    requires Run(max, r, acts) && i <= j <= |acts|
    ensures Passed(r, acts, i, j) <= max * (Adds(acts, i, j) + 1)
  {
    CountedOff(max, r, acts, i, j);
    AdmissionBound(max, r, acts, i, j);
  }

  lemma {:induction false} BetweenRefills(max: nat, r: seq<State>, acts: seq<Action>, m: nat, n: nat)
    requires Run(max, r, acts) && m < n <= |acts| && acts[m].Read?
    requires forall k :: m < k < n ==> acts[k].Call?
    ensures r[n].toAdd == max - r[m].available && r[n].available + Passed(r, acts, m, n) == r[m].available
    decreases n
  {
    PermitsConserved(max, r, acts, m);
    assert Enabled(r[n - 1], acts[n - 1]);
    if m + 1 < n {
      BetweenRefills(max, r, acts, m, n - 1);
    } else {
      assert Passed(r, acts, m, m) == 0;
    }
  }

  /** A refill fills the bucket up to `max` but for the calls let through between its two steps. */
  lemma RefillRestores(max: nat, r: seq<State>, acts: seq<Action>, m: nat, n: nat)
    requires Run(max, r, acts) && m < n < |acts| && acts[m].Read? && acts[n].Add?
    requires forall k :: m < k < n ==> acts[k].Call?
    ensures r[n + 1].available == max - Passed(r, acts, m, n)
    ensures n == m + 1 ==> r[n + 1].available == max
  {
    BetweenRefills(max, r, acts, m, n);
    assert Enabled(r[n], acts[n]);
    if n == m + 1 { assert Passed(r, acts, m, m) == 0; }
  }

  /** A call is refused only when everything there ever was has been handed out: `max` at first, and what refills
      added. */
  lemma RefusedIsSpent(max: nat, r: seq<State>, acts: seq<Action>, j: nat)
    requires Run(max, r, acts) && j < |acts| && acts[j].Call? && r[j].available == 0
    ensures Passed(r, acts, 0, j) == max + r[j].replenished
  {
    CountedOff(max, r, acts, 0, j);
    PermitsConserved(max, r, acts, j);
  }

  class TokenBucket {
    const max: nat
    var available: nat
    var reading: bool
    var toAdd: nat
    ghost var admitted: nat
    ghost var replenished: nat
    ghost var refills: nat

    ghost function View(): State
      reads this
    {
      State(max, available, reading, toAdd, admitted, replenished, refills)
    }

    constructor (max: nat)
      ensures View() == Initial(max)
    {
      this.max, available, reading, toAdd := max, max, false, 0;
      admitted, replenished, refills := 0, 0, 0;
    }

    /** Admission in `call_tool`: refused exactly when no permit is left. */
    method TryCall() returns (ok: bool)
      modifies this
      ensures View() == Next(old(View()), Call) && ok == (old(available) > 0)
      ensures available == old(available) - (if ok then 1 else 0) && admitted == old(admitted) + if ok then 1 else 0
    {
      ok := available > 0;
      if ok { available, admitted := available - 1, admitted + 1; }
    }

    method ReadMissing()
      requires Enabled(View(), Read)
      modifies this
      ensures View() == Next(old(View()), Read)
    {
      reading := true;
      toAdd := if available <= max then max - available else 0;
    }

    method AddMissing()
      requires Enabled(View(), Add)
      modifies this
      ensures View() == Next(old(View()), Add)
    {
      if toAdd > 0 { available := available + toAdd; }
      replenished, refills := replenished + toAdd, refills + 1;
      reading, toAdd := false, 0;
    }
  }
}
