/** The checker's record of one backend, as the source keeps it: fields changed in place. */
module HealthObject {
  import opened Options
  import opened Health

  class HealthRecord {
    const c: Config
    var now: Time
    var pc: Pc
    var failures: nat
    var lastRestart: Option<Time>
    var restartCount: nat
    var windowStart: Option<Time>
    var circuitOpenSince: Option<Time>
    ghost var past: Past

    function Fields(): BackendHealth
      reads this
    {
      BackendHealth(failures, lastRestart, restartCount, windowStart, circuitOpenSince)
    }

    ghost function View(): State
      reads this
    {
      State(now, pc, Fields(), past)
    }

    constructor (c: Config)
      ensures View() == INITIAL && this.c == c
    {
      this.c, now, pc := c, 0, Idle;
      failures, lastRestart, restartCount, windowStart, circuitOpenSince := 0, None, 0, None, None;
      past := Past([], [], [], [], []);
    }

    method RecordSuccess()
      modifies this`failures, this`circuitOpenSince, this`past
      ensures View() == Record(old(View()), true)
    {
      failures := 0;
      circuitOpenSince := None;
      past := past.(outcomes := past.outcomes + [true]);
    }

    method RecordFailure()
      modifies this`failures, this`past
      ensures View() == Record(old(View()), false)
    {
      failures := failures + 1;
      past := past.(outcomes := past.outcomes + [false]);
    }

    /** `restart_backoff`: the multiplier is doubled once for every restart counted, five times at most. */
    method RestartBackoff() returns (backoff: Time)
      ensures backoff == Backoff(c, restartCount)
    {
      var multiplier, i := 1, 0;
      var most := if restartCount < 5 then restartCount else 5;
      while i < most
        invariant i <= most && multiplier == Pow2(i)
      {
        multiplier := 2 * multiplier;
        i := i + 1;
      }
      backoff := c.initialBackoff * multiplier;
      if c.maxBackoff < backoff { backoff := c.maxBackoff; }
    }

    method MayRestart(at: Time) returns (yes: bool)
      ensures yes <==> ShouldRestart(c, Fields(), at)
    {
      if windowStart.Some? && at - windowStart.value > c.restartWindow { return true; }
      yes := restartCount < c.maxRestarts;
    }

    method BeginRestart(at: Time, pending: bool)
      modifies this
      ensures View() == Begin(c, old(View()), at, pending)
    {
      if windowStart.None? || at - windowStart.value > c.restartWindow {
        restartCount := 0;
        windowStart := Some(at);
        past := past.(openings := past.openings + [at]);
      }
      ghost var window: nat := if past.openings == [] then 0 else |past.openings| - 1;
      past := past.(starts := past.starts + [at], windows := past.windows + [window]);
      now, pc := at, Restarting(pending);
    }

    /** The common part of phases 2 and 3, up to the first wait. */
    method TryRestart(at: Time, pending: bool, prereq: bool)
      modifies this
      ensures View() == Retry(c, old(View()), at, pending, prereq)
    {
      var may := MayRestart(at);
      var backoff := RestartBackoff();
      var over := lastRestart.None? || at - lastRestart.value >= backoff;
      if may && over {
        if prereq {
          now, pc := at, Prerequisite(pending);
        } else {
          BeginRestart(at, pending);
        }
      } else {
        now := at;
      }
    }

    /** One look at the backend in one cycle. */
    method LookAt(at: Time, seen: Seen, prereq: bool)
      requires Enabled(View(), Look(at, seen, prereq))
      modifies this
      ensures View() == Next(c, old(View()), Look(at, seen, prereq))
    {
      if seen == Healthy {
        now, pc := at, Pinging;
      } else if seen == Starting {
        now := at;
      } else if seen == Absent {
        TryRestart(at, true, prereq);
      } else {
        if seen == Stopped { circuitOpenSince := None; }
        if circuitOpenSince.Some? {
          if at - circuitOpenSince.value >= c.interval * c.recoveryMultiplier { pc := Probing; }
          now := at;
        } else {
          TryRestart(at, false, prereq);
        }
      }
    }

    /** The end of a ping or probe. */
    method PingEnds(at: Time, ok: bool)
      requires Enabled(View(), Settle(at, ok)) && (pc.Pinging? || pc.Probing?)
      modifies this
      ensures View() == Next(c, old(View()), Settle(at, ok))
    {
      var probing := pc.Probing?;
      now, pc := at, Idle;
      if ok {
        RecordSuccess();
      } else if probing {
        circuitOpenSince := Some(at);
      } else {
        RecordFailure();
        if failures >= c.failureThreshold { circuitOpenSince := Some(at); }
      }
    }

    /** The end of a prerequisite check or of a restart. */
    method RestartEnds(at: Time, ok: bool)
      requires Enabled(View(), Settle(at, ok)) && (pc.Prerequisite? || pc.Restarting?)
      modifies this
      ensures View() == Next(c, old(View()), Settle(at, ok))
    {
      if pc.Prerequisite? && ok {
        BeginRestart(at, pc.pending);
        return;
      }
      var restarting := pc.Restarting?;
      now, pc := at, Idle;
      if restarting {
        if ok { RecordSuccess(); }
        past := past.(ends := past.ends + [at]);
      }
      restartCount := restartCount + 1;
      lastRestart := Some(at);
    }
  }
}
