/** How fast a backend may be restarted, and when its circuit opens. */
module HealthBackoff {
  import opened Numbers
  import opened Options
  import opened Health
  import opened HealthBudget

  // ---- Backoff ----

  lemma {:induction false} Pow2Monotone(m: nat, n: nat)
    requires m <= n
    ensures Pow2(m) <= Pow2(n)
  {
    if m < n { Pow2Monotone(m, n - 1); }
  }

  lemma BackoffMonotone(c: Config, m: nat, n: nat)
    requires m <= n
    ensures Backoff(c, m) <= Backoff(c, n)
  {
    Pow2Monotone(Least(m, 5), Least(n, 5));
    Scale(c.initialBackoff, Pow2(Least(m, 5)), Pow2(Least(n, 5)));
  }

  lemma Scale(x: nat, p: nat, q: nat)
    requires p <= q
    ensures x * p <= x * q
  {
  }

  function Wait(c: Config): nat -> nat { k => Backoff(c, k) }

  /** Every attempt starts after the one before it ended, by at least the wait for the attempts made in that one's
      window so far. */
  ghost predicate Spaced(wait: nat -> nat, starts: seq<Time>, windows: seq<nat>, ends: seq<Time>) {
    && |windows| == |starts|
    && (forall i :: 0 < i < |starts| && i - 1 < |ends| ==>
          starts[i] >= ends[i - 1] + wait(In(windows[..i], windows[i - 1])))
  }

  lemma SpacedStart(wait: nat -> nat, starts: seq<Time>, windows: seq<nat>, ends: seq<Time>, at: Time, v: nat)
    requires Spaced(wait, starts, windows, ends) && |ends| == |starts|
    requires ends != [] ==> at >= ends[|ends| - 1] + wait(In(windows, windows[|ends| - 1]))
    ensures Spaced(wait, starts + [at], windows + [v], ends)
  {
    var windows' := windows + [v];
    forall i | 0 < i <= |starts| ensures windows'[..i] == windows[..i] {}
    assert windows[..|starts|] == windows;
  }

  lemma SpacedEnd(wait: nat -> nat, starts: seq<Time>, windows: seq<nat>, ends: seq<Time>, at: Time)
    requires Spaced(wait, starts, windows, ends) && |ends| + 1 == |starts|
    ensures Spaced(wait, starts, windows, ends + [at])
  {
  }

  ghost predicate Paired(s: State) { |s.past.starts| == |s.past.ends| + if s.pc.Restarting? then 1 else 0 }

  /** The last attempt ended no later than the last restart noted, and is in the newest window. */
  ghost predicate Noted(s: State) {
    && (s.past.ends != [] ==>
          s.health.lastRestart.Some? && s.past.ends[|s.past.ends| - 1] <= s.health.lastRestart.value)
    && (s.health.lastRestart.Some? ==> s.health.lastRestart.value <= s.now)
    && (s.past.windows != [] ==> s.past.windows[|s.past.windows| - 1] == |s.past.openings| - 1)
  }

  ghost predicate Paced(c: Config, s: State) {
    && Spaced(Wait(c), s.past.starts, s.past.windows, s.past.ends) && Paired(s) && Noted(s)
    && (s.pc.Prerequisite? ==> BackedOff(c, s.health, s.now))
  }

  lemma BackedOffSpaced(c: Config, s: State, at: Time)
    requires Inv(c, s) && Paced(c, s) && BackedOff(c, s.health, at) && !s.pc.Restarting? && s.past.ends != []
    ensures var n := |s.past.ends| - 1; at >= s.past.ends[n] + Wait(c)(In(s.past.windows, s.past.windows[n]))
  {
    hide Backoff, In;
    BackoffMonotone(c, In(s.past.windows, |s.past.openings| - 1), s.health.restartCount);
  }

  lemma BeginSpaced(c: Config, s: State, at: Time, v: nat)
    requires Inv(c, s) && Paced(c, s) && BackedOff(c, s.health, at) && !s.pc.Restarting?
    ensures Spaced(Wait(c), s.past.starts + [at], s.past.windows + [v], s.past.ends)
  {
    hide Backoff, Spaced, Inv;
    var p := s.past;
    if p.ends != [] { BackedOffSpaced(c, s, at); }
    SpacedStart(Wait(c), p.starts, p.windows, p.ends, at, v);
  }

  lemma BeginNoted(c: Config, s: State, at: Time, pending: bool)
    requires Open(s) && Paired(s) && Noted(s) && s.now <= at && !s.pc.Restarting?
    ensures Paired(Begin(c, s, at, pending)) && Noted(Begin(c, s, at, pending))
    ensures Begin(c, s, at, pending).past.openings != []
  {
  }

  lemma BeginPaced(c: Config, s: State, at: Time, pending: bool)
    requires Inv(c, s) && Paced(c, s) && s.now <= at && BackedOff(c, s.health, at) && !s.pc.Restarting?
    ensures Paced(c, Begin(c, s, at, pending))
  {
    hide Backoff, Spaced, Paired, Noted, BackedOff, Open, Apart, Placed, Budgeted, Permitted;
    BeginNoted(c, s, at, pending);
    BeginSpaced(c, s, at, |Begin(c, s, at, pending).past.openings| - 1);
  }

  /** Nothing but the clock, the waiting and the notes changes what the spacing speaks of. */
  lemma QuietPaced(c: Config, s: State, t: State)
    requires Paced(c, s) && t.past.(outcomes := []) == s.past.(outcomes := []) && s.now <= t.now
    requires !s.pc.Restarting? && !t.pc.Restarting? && (t.pc.Prerequisite? ==> BackedOff(c, t.health, t.now))
    requires t.health.lastRestart == s.health.lastRestart || t.health.lastRestart == Some(t.now)
    ensures Paced(c, t)
  {
    hide Backoff, In;
    assert t.past.starts == s.past.starts && t.past.windows == s.past.windows
           && t.past.ends == s.past.ends && t.past.openings == s.past.openings;
  }

  lemma RetryPaced(c: Config, s: State, at: Time, pending: bool, prereq: bool)
    requires Inv(c, s) && Paced(c, s) && s.now <= at && s.pc.Idle?
    ensures Paced(c, Retry(c, s, at, pending, prereq))
  {
    hide Backoff, In, Paced, Inv;
    if ShouldRestart(c, s.health, at) && BackedOff(c, s.health, at) && !prereq {
      BeginPaced(c, s, at, pending);
    } else {
      QuietPaced(c, s, Retry(c, s, at, pending, prereq));
    }
  }

  lemma StoppedPaced(c: Config, s: State, at: Time, prereq: bool)
    requires Inv(c, s) && Paced(c, s) && s.now <= at && s.pc.Idle?
    ensures Paced(c, LookNext(c, s, at, Stopped, prereq))
  {
    hide Backoff, Paced;
    var t := s.(health := s.health.(circuitOpenSince := None));
    CalmKeeps(c, s, t);
    QuietPaced(c, s, t);
    RetryPaced(c, t, at, false, prereq);
  }

  /** Looking at a backend that is not to be restarted now. */
  lemma GlancePaced(c: Config, s: State, at: Time, seen: Seen, prereq: bool)
    requires Paced(c, s) && s.now <= at && s.pc.Idle?
    requires seen.Healthy? || seen.Starting? || (seen.Unhealthy? && s.health.circuitOpenSince.Some?)
    ensures Paced(c, LookNext(c, s, at, seen, prereq))
  {
    hide Backoff, In, Paced;
    var t := LookNext(c, s, at, seen, prereq);
    assert t.past == s.past && t.health == s.health && !t.pc.Prerequisite? && !t.pc.Restarting?;
    QuietPaced(c, s, t);
  }

  lemma LookPaced(c: Config, s: State, at: Time, seen: Seen, prereq: bool)
    requires Inv(c, s) && Paced(c, s) && s.now <= at && s.pc.Idle?
    ensures Paced(c, LookNext(c, s, at, seen, prereq))
  {
    if seen.Absent? || (seen.Unhealthy? && s.health.circuitOpenSince.None?) {
      RetryPaced(c, s, at, seen.Absent?, prereq);
    } else if seen.Stopped? {
      StoppedPaced(c, s, at, prereq);
    } else {
      GlancePaced(c, s, at, seen, prereq);
    }
  }

  lemma EndPaced(c: Config, s: State, at: Time, ok: bool)
    requires Paced(c, s) && s.now <= at && s.pc.Restarting?
    ensures Paced(c, SettleNext(c, s, at, ok))
  {
    SpacedEnd(Wait(c), s.past.starts, s.past.windows, s.past.ends, at);
  }

  lemma PingPaced(c: Config, s: State, at: Time, ok: bool)
    requires Paced(c, s) && s.now <= at && !s.pc.Idle? && !s.pc.Restarting? && !(s.pc.Prerequisite? && ok)
    ensures Paced(c, SettleNext(c, s, at, ok))
  {
    var t := SettleNext(c, s, at, ok);
    assert t.pc == Idle && t.now == at;
    assert t.past.(outcomes := []) == s.past.(outcomes := []);
    assert t.health.lastRestart == s.health.lastRestart || t.health.lastRestart == Some(at);
    QuietPaced(c, s, t);
  }

  lemma SettlePaced(c: Config, s: State, at: Time, ok: bool)
    requires Inv(c, s) && Paced(c, s) && s.now <= at && !s.pc.Idle?
    ensures Paced(c, SettleNext(c, s, at, ok))
  {
    if s.pc.Restarting? {
      EndPaced(c, s, at, ok);
    } else if s.pc.Prerequisite? && ok {
      BeginPaced(c, s, at, s.pc.pending);
    } else {
      PingPaced(c, s, at, ok);
    }
  }

  lemma {:induction false} AlwaysPaced(c: Config, r: seq<State>, acts: seq<Action>, i: nat)
    requires Run(c, r, acts) && i < |r|
    ensures Paced(c, r[i])
  {
    if i > 0 {
      AlwaysPaced(c, r, acts, i - 1);
      Always(c, r, acts, i - 1);
      StepPaced(c, r[i - 1], acts[i - 1]);
    }
  }

  lemma StepPaced(c: Config, s: State, a: Action)
    requires Inv(c, s) && Paced(c, s) && Enabled(s, a)
    ensures Paced(c, Next(c, s, a))
  {
    match a
    case Look(at, seen, prereq) => LookPaced(c, s, at, seen, prereq);
    case Settle(at, ok) => SettlePaced(c, s, at, ok);
  }

  /** The k-th attempt of a run starts at least the capped exponential backoff after the one before it ended. */
  lemma AttemptsSpaced(c: Config, r: seq<State>, acts: seq<Action>, i: nat, k: nat)
    requires Run(c, r, acts) && i < |r| && 0 < k < |r[i].past.starts|
    ensures var p := r[i].past;
      && |p.ends| >= k && |p.windows| == |p.starts|
      && p.starts[k] >= p.ends[k - 1] + Backoff(c, In(p.windows[..k], p.windows[k - 1]))
  {
    AlwaysPaced(c, r, acts, i);
  }

  // ---- The circuit breaker ----

  /** How many failures were recorded since the last success. */
  function Trailing(outcomes: seq<bool>): nat {
    if outcomes == [] || outcomes[|outcomes| - 1] then 0 else 1 + Trailing(outcomes[..|outcomes| - 1])
  }

  /** The count is of failures in a row; an open circuit had enough of them; and only phase 3, which does not look
      at the circuit, restarts a backend while its circuit is open. */
  ghost predicate Guarded(c: Config, s: State) {
    && s.health.failures == Trailing(s.past.outcomes)
    && (s.health.circuitOpenSince.Some? ==>
          s.health.failures >= c.failureThreshold && s.health.circuitOpenSince.value <= s.now)
    && (s.health.circuitOpenSince.Some? && (s.pc.Prerequisite? || s.pc.Restarting?) ==> s.pc.pending)
    && (s.pc.Probing? ==> s.health.circuitOpenSince.Some?)
  }

  lemma TrailingNext(outcomes: seq<bool>, ok: bool)
    ensures Trailing(outcomes + [ok]) == if ok then 0 else 1 + Trailing(outcomes)
  {
    assert (outcomes + [ok])[..|outcomes|] == outcomes;
  }

  lemma LookGuarded(c: Config, s: State, at: Time, seen: Seen, prereq: bool)
    requires Guarded(c, s) && s.now <= at && s.pc.Idle?
    ensures Guarded(c, LookNext(c, s, at, seen, prereq))
  {
  }

  lemma SettleGuarded(c: Config, s: State, at: Time, ok: bool)
    requires Guarded(c, s) && s.now <= at && !s.pc.Idle?
    ensures Guarded(c, SettleNext(c, s, at, ok))
  {
    TrailingNext(s.past.outcomes, ok);
  }

  lemma StepGuarded(c: Config, s: State, a: Action)
    requires Guarded(c, s) && Enabled(s, a)
    ensures Guarded(c, Next(c, s, a))
  {
    match a
    case Look(at, seen, prereq) => LookGuarded(c, s, at, seen, prereq);
    case Settle(at, ok) => SettleGuarded(c, s, at, ok);
  }

  lemma {:induction false} CircuitGuards(c: Config, r: seq<State>, acts: seq<Action>, i: nat)
    requires Run(c, r, acts) && i < |r|
    ensures Guarded(c, r[i])
  {
    if i > 0 {
      CircuitGuards(c, r, acts, i - 1);
      StepGuarded(c, r[i - 1], acts[i - 1]);
    }
  }

  /** A circuit opens, or stays open after a probe, until at least the recovery time has passed: only then is there
      a probe; and only a success or the end of the process closes it. */
  lemma CircuitHolds(c: Config, r: seq<State>, acts: seq<Action>, i: nat)
    requires Run(c, r, acts) && i < |acts| && r[i].health.circuitOpenSince.Some?
    ensures var s, a, t := r[i], acts[i], r[i + 1];
      && (t.pc.Probing? && a.Look? ==> a.at >= s.health.circuitOpenSince.value + c.interval * c.recoveryMultiplier)
      && (t.pc.Restarting? && a.Look? ==> a.seen.Absent? || a.seen.Stopped?)
      && (t.health.circuitOpenSince.None? <==>
            (a.Look? && a.seen.Stopped?) || (a.Settle? && a.ok && !s.pc.Prerequisite?))
  {
    CircuitGuards(c, r, acts, i);
    assert Enabled(r[i], acts[i]) && r[i + 1] == Next(c, r[i], acts[i]);
  }

  /** A closed circuit opens exactly at a failed ping that completes `failureThreshold` failures in a row. */
  lemma CircuitOpensIff(c: Config, r: seq<State>, acts: seq<Action>, i: nat)
    requires Run(c, r, acts) && i < |acts| && r[i].health.circuitOpenSince.None?
    ensures r[i + 1].health.circuitOpenSince.Some? <==>
              && r[i].pc.Pinging? && acts[i].Settle? && !acts[i].ok
              && Trailing(r[i].past.outcomes) + 1 >= c.failureThreshold
  {
    CircuitGuards(c, r, acts, i);
    assert Enabled(r[i], acts[i]) && r[i + 1] == Next(c, r[i], acts[i]);
  }
}
