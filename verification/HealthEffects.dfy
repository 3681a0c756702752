/** How long the checker waits, in numbers, and what it does about each state it finds. */
module HealthEffects {
  import opened Numbers
  import opened Options
  import opened Health

  // ---- The wait ----

  lemma Powers()
    ensures Pow2(0) == 1 && Pow2(1) == 2 && Pow2(2) == 4 && Pow2(3) == 8 && Pow2(4) == 16 && Pow2(5) == 32
  {
    assert Pow2(2) == 2 * Pow2(1) && Pow2(3) == 2 * Pow2(2) && Pow2(4) == 2 * Pow2(3) && Pow2(5) == 2 * Pow2(4);
  }

  /** The wait before a restart is 1, 2, 4, 8, 16 or 32 times the initial backoff, by the number of restarts counted,
      stays at the last from five restarts on, and is never above the maximum. */
  lemma BackoffDoubles(c: Config, count: nat)
    ensures Backoff(c, 0) == Capped(c, 1) && Backoff(c, 1) == Capped(c, 2) && Backoff(c, 2) == Capped(c, 4)
    ensures Backoff(c, 3) == Capped(c, 8) && Backoff(c, 4) == Capped(c, 16) && Backoff(c, 5) == Capped(c, 32)
    ensures count >= 5 ==> Backoff(c, count) == Backoff(c, 5)
    ensures Backoff(c, count) <= c.maxBackoff
  {
    Powers();
  }

  function Capped(c: Config, times: nat): nat {
    if c.initialBackoff * times <= c.maxBackoff then c.initialBackoff * times else c.maxBackoff
  }

  // ---- What a look leads to ----

  /** A restart is due: one more is allowed, in an expired window or below the maximum, and the wait since the last is
      over. */
  predicate Due(c: Config, s: State, at: Time) {
    && (s.health.restartCount < c.maxRestarts
        || (s.health.windowStart.Some? && at > s.health.windowStart.value + c.restartWindow))
    && (s.health.lastRestart.Some? ==> at >= s.health.lastRestart.value + Backoff(c, s.health.restartCount))
  }

  /** A healthy backend is pinged, and one that starts is left alone. */
  lemma HealthyIsPinged(c: Config, s: State, at: Time, prereq: bool)
    ensures LookNext(c, s, at, Healthy, prereq) == s.(now := at, pc := Pinging)
    ensures LookNext(c, s, at, Starting, prereq) == s.(now := at)
  {
  }

  /** A restart attempt begins, or its prerequisite is checked first, or nothing happens. */
  ghost predicate Tries(c: Config, s: State, t: State, at: Time, prereq: bool) {
    if Due(c, s, at) then
      if prereq then t.pc.Prerequisite? && t.past == s.past
      else t.pc.Restarting? && t.past.starts == s.past.starts + [at]
    else t.pc == s.pc && t.past == s.past
  }

  /** A backend that is absent, stopped, or unhealthy with its circuit closed is restarted exactly when that is due;
      one whose circuit is open is probed exactly when the recovery time is over. */
  lemma LookReacts(c: Config, s: State, at: Time, prereq: bool)
    requires s.pc.Idle?
    ensures Tries(c, s, LookNext(c, s, at, Absent, prereq), at, prereq)
    ensures Tries(c, s, LookNext(c, s, at, Stopped, prereq), at, prereq)
    ensures s.health.circuitOpenSince.None? ==> Tries(c, s, LookNext(c, s, at, Unhealthy, prereq), at, prereq)
    ensures s.health.circuitOpenSince.Some? ==>
              var t := LookNext(c, s, at, Unhealthy, prereq);
              && t.past == s.past
              && (t.pc.Probing? <==> at >= s.health.circuitOpenSince.value + c.interval * c.recoveryMultiplier)
              && (t.pc == s.pc || t.pc.Probing?)
  {
    hide Backoff;
    assert ShouldRestart(c, s.health, at) && BackedOff(c, s.health, at) <==> Due(c, s, at);
  }

  // ---- What the end of a wait leads to ----

  /** However a restart or prerequisite check ends, it is counted and timed, once; a check that succeeds begins the
      restart instead. */
  lemma EndsAreCounted(c: Config, s: State, at: Time, ok: bool)
    requires s.pc.Restarting? || s.pc.Prerequisite?
    ensures var t := SettleNext(c, s, at, ok);
      if s.pc.Prerequisite? && ok then t.pc.Restarting? && t.past.starts == s.past.starts + [at]
      else t.pc.Idle? && t.health.restartCount == s.health.restartCount + 1 && t.health.lastRestart == Some(at)
           && t.past.starts == s.past.starts
  {
  }
}
