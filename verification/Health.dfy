/**
 The health checker of src/backend/health.rs, phases 1 to 3, as it treats one backend.  A step is what the checker
 does between two waits; every step reads the clock once.
 */
module Health {
  import opened Numbers
  import opened Options

  type Time = nat

  datatype Config = Config(interval: Time, failureThreshold: nat, maxRestarts: nat, restartWindow: Time,
                           initialBackoff: Time, maxBackoff: Time, recoveryMultiplier: nat)

  datatype BackendHealth = BackendHealth(failures: nat, lastRestart: Option<Time>, restartCount: nat,
                                         windowStart: Option<Time>, circuitOpenSince: Option<Time>)

  const NEW := BackendHealth(0, None, 0, None, None)

  /** What the checker found when it listed the backends; `Absent` ones are configured but not running. */
  datatype Seen = Absent | Starting | Healthy | Unhealthy | Stopped

  /** What the checker is waiting for; `pending` tells phase 3 from phase 2. */
  datatype Pc = Idle | Pinging | Probing | Prerequisite(pending: bool) | Restarting(pending: bool)

  /** What happened so far: window openings, and for every attempt its start, its window and, once over, its end;
      and what was recorded, success or failure. */
  datatype Past = Past(openings: seq<Time>, starts: seq<Time>, windows: seq<nat>, ends: seq<Time>, outcomes: seq<bool>)

  datatype State = State(now: Time, pc: Pc, health: BackendHealth, past: Past)

  const INITIAL := State(0, Idle, NEW, Past([], [], [], [], []))

  /** `at` is the time of the step; `prereq` whether the backend has a prerequisite; `ok` how the wait ended. */
  datatype Action = Look(at: Time, seen: Seen, prereq: bool) | Settle(at: Time, ok: bool)

  function Pow2(n: nat): nat { if n == 0 then 1 else 2 * Pow2(n - 1) }

  function Backoff(c: Config, count: nat): Time { Least(c.initialBackoff * Pow2(Least(count, 5)), c.maxBackoff) }

  predicate Expired(c: Config, h: BackendHealth, at: Time) {
    h.windowStart.Some? && at - h.windowStart.value > c.restartWindow
  }

  predicate ShouldRestart(c: Config, h: BackendHealth, at: Time) { Expired(c, h, at) || h.restartCount < c.maxRestarts }

  predicate BackedOff(c: Config, h: BackendHealth, at: Time) {
    h.lastRestart.Some? ==> at - h.lastRestart.value >= Backoff(c, h.restartCount)
  }

  function RecordSuccess(h: BackendHealth): BackendHealth { h.(failures := 0, circuitOpenSince := None) }

  function RecordFailure(h: BackendHealth): BackendHealth { h.(failures := h.failures + 1) }

  function CountRestart(h: BackendHealth, at: Time): BackendHealth {
    h.(restartCount := h.restartCount + 1, lastRestart := Some(at))
  }

  /** A restart begins; it opens a window if none is open. */
  function Begin(c: Config, s: State, at: Time, pending: bool): State {
    var opens := s.health.windowStart.None? || Expired(c, s.health, at);
    var h := if opens then s.health.(restartCount := 0, windowStart := Some(at)) else s.health;
    var openings := if opens then s.past.openings + [at] else s.past.openings;
    var window: nat := if openings == [] then 0 else |openings| - 1;
    State(at, Restarting(pending), h,
          s.past.(openings := openings, starts := s.past.starts + [at], windows := s.past.windows + [window]))
  }

  /** Phases 2 and 3 agree on when to restart. */
  function Retry(c: Config, s: State, at: Time, pending: bool, prereq: bool): State {
    if ShouldRestart(c, s.health, at) && BackedOff(c, s.health, at) then
      if prereq then s.(now := at, pc := Prerequisite(pending)) else Begin(c, s, at, pending)
    else s.(now := at)
  }

  function LookNext(c: Config, s: State, at: Time, seen: Seen, prereq: bool): State {
    match seen
    case Healthy => s.(now := at, pc := Pinging)
    case Starting => s.(now := at)
    case Absent => Retry(c, s, at, true, prereq)
    case Unhealthy =>
      if s.health.circuitOpenSince.None? then Retry(c, s, at, false, prereq)
      else if at - s.health.circuitOpenSince.value >= c.interval * c.recoveryMultiplier then
        s.(now := at, pc := Probing)
      else s.(now := at)
    case Stopped => Retry(c, s.(health := s.health.(circuitOpenSince := None)), at, false, prereq)
  }

  function Record(s: State, ok: bool): State {
    s.(health := if ok then RecordSuccess(s.health) else RecordFailure(s.health),
       past := s.past.(outcomes := s.past.outcomes + [ok]))
  }

  function Trip(c: Config, h: BackendHealth, at: Time): BackendHealth {
    if h.failures >= c.failureThreshold then h.(circuitOpenSince := Some(at)) else h
  }

  function SettleNext(c: Config, s: State, at: Time, ok: bool): State {
    var t := s.(now := at, pc := Idle);
    match s.pc
    case Idle => s
    case Pinging => if ok then Record(t, true) else var r := Record(t, false); r.(health := Trip(c, r.health, at))
    case Probing => if ok then Record(t, true) else t.(health := t.health.(circuitOpenSince := Some(at)))
    case Prerequisite(pending) =>
      if ok then Begin(c, s, at, pending) else t.(health := CountRestart(t.health, at))
    case Restarting(_) =>
      var r := if ok then Record(t, true) else t;
      r.(health := CountRestart(r.health, at), past := r.past.(ends := r.past.ends + [at]))
  }

  predicate Enabled(s: State, a: Action) { s.now <= a.at && (a.Look? <==> s.pc.Idle?) }

  function Next(c: Config, s: State, a: Action): State
    requires Enabled(s, a)
  {
    match a
    case Look(at, seen, prereq) => LookNext(c, s, at, seen, prereq)
    case Settle(at, ok) => SettleNext(c, s, at, ok)
  }

  ghost predicate Run(c: Config, r: seq<State>, acts: seq<Action>) {
    && |r| == |acts| + 1 && r[0] == INITIAL
    && forall i :: 0 <= i < |acts| ==> Enabled(r[i], acts[i]) && r[i + 1] == Next(c, r[i], acts[i])
  }
}
