/** How often a backend may be restarted. */
module HealthBudget {
  import opened Options
  import opened Health

  /** How many attempts fall into a window. */
  function In(windows: seq<nat>, w: int): nat {
    if windows == [] then 0 else In(windows[..|windows| - 1], w) + if windows[|windows| - 1] == w then 1 else 0
  }

  /** Window openings are more than the restart window apart. */
  ghost predicate Apart(c: Config, openings: seq<Time>) {
    forall i, j :: 0 <= i < j < |openings| ==> openings[j] - openings[i] > c.restartWindow
  }

  ghost predicate Open(s: State) {
    && s.health.windowStart == (if s.past.openings == [] then None else Some(s.past.openings[|s.past.openings| - 1]))
    && forall i :: 0 <= i < |s.past.openings| ==> s.past.openings[i] <= s.now
  }

  /** Every attempt starts after its window opened, and before the next one did. */
  ghost predicate Placed(p: Past, now: Time) {
    && |p.windows| == |p.starts|
    && (forall i :: 0 <= i < |p.starts| ==>
          p.windows[i] < |p.openings| && p.openings[p.windows[i]] <= p.starts[i] <= now)
    && (forall i, w :: 0 <= i < |p.starts| && p.windows[i] < w < |p.openings| ==> p.starts[i] <= p.openings[w])
    && (forall i, j :: 0 <= i < j < |p.windows| ==> p.windows[i] <= p.windows[j])
  }

  ghost predicate Budgeted(c: Config, s: State) {
    && (forall w :: In(s.past.windows, w) <= c.maxRestarts)
    && In(s.past.windows, |s.past.openings| - 1) <= s.health.restartCount + if s.pc.Restarting? then 1 else 0
  }

  ghost predicate Permitted(c: Config, s: State) {
    && (s.pc.Restarting? ==> s.past.openings != [] && s.health.restartCount < c.maxRestarts)
    && (s.pc.Prerequisite? ==> ShouldRestart(c, s.health, s.now))
    && (c.maxRestarts == 0 ==> s.past.openings == [])
  }

  ghost predicate Inv(c: Config, s: State) {
    Open(s) && Apart(c, s.past.openings) && Placed(s.past, s.now) && Budgeted(c, s) && Permitted(c, s)
  }

  // ---- Steps ----

  /** Nothing but the clock and the waiting changes what the bounds speak of. */
  ghost predicate Calm(s: State, t: State) {
    && t.now >= s.now && t.past.(outcomes := [], ends := []) == s.past.(outcomes := [], ends := [])
    && t.health.windowStart == s.health.windowStart && t.health.restartCount >= s.health.restartCount
  }

  lemma CalmKeeps(c: Config, s: State, t: State)
    requires Inv(c, s) && Calm(s, t) && !t.pc.Restarting?
    requires s.pc.Restarting? ==> t.health.restartCount > s.health.restartCount
    requires t.pc.Prerequisite? ==> ShouldRestart(c, t.health, t.now)
    ensures Inv(c, t)
  {
    hide In;
    assert t.past.windows == s.past.windows && t.past.openings == s.past.openings && t.past.starts == s.past.starts;
  }

  lemma {:induction false} NoneYet(windows: seq<nat>, w: nat)
    requires forall i :: 0 <= i < |windows| ==> windows[i] < w
    ensures In(windows, w) == 0
  {
    if windows != [] { NoneYet(windows[..|windows| - 1], w); }
  }

  lemma InAppend(windows: seq<nat>, w: int, v: nat)
    ensures In(windows + [v], w) == In(windows, w) + if v == w then 1 else 0
  {
    assert (windows + [v])[..|windows|] == windows;
  }

  lemma BeginOpen(c: Config, s: State, at: Time, pending: bool)
    requires Open(s) && Apart(c, s.past.openings) && s.now <= at
    ensures var t := Begin(c, s, at, pending); Open(t) && Apart(c, t.past.openings)
  {
  }

  /** An attempt in a window that has just opened, or in the newest one. */
  lemma OneMorePlaced(p: Past, now: Time, at: Time, v: nat)
    requires Placed(p, now) && now <= at && v + 1 == |p.openings| && p.openings[v] <= at
    requires forall i :: 0 <= i < |p.openings| ==> p.openings[i] <= at
    ensures Placed(p.(starts := p.starts + [at], windows := p.windows + [v]), at)
  {
  }

  lemma WindowOpens(p: Past, now: Time, at: Time)
    requires Placed(p, now) && now <= at
    ensures Placed(p.(openings := p.openings + [at]), now)
  {
  }

  lemma BeginPlaced(c: Config, s: State, at: Time, pending: bool)
    requires Open(s) && Placed(s.past, s.now) && s.now <= at
    ensures var t := Begin(c, s, at, pending); t.past.openings != [] && Placed(t.past, t.now)
  {
    hide Placed;
    var t := Begin(c, s, at, pending);
    WindowOpens(s.past, s.now, at);
    var p := if t.past.openings == s.past.openings then s.past else s.past.(openings := s.past.openings + [at]);
    OneMorePlaced(p, s.now, at, |p.openings| - 1);
  }

  lemma BeginBudgeted(c: Config, s: State, at: Time, pending: bool)
    requires Inv(c, s) && s.now <= at && ShouldRestart(c, s.health, at) && !s.pc.Restarting?
    ensures var t := Begin(c, s, at, pending); Budgeted(c, t) && Permitted(c, t)
  {
    hide In, Backoff;
    var t := Begin(c, s, at, pending);
    var v := |t.past.openings| - 1;
    NoneYet(s.past.windows, |s.past.openings|);
    forall w ensures In(t.past.windows, w) <= c.maxRestarts {
      InAppend(s.past.windows, w, v);
      assert In(s.past.windows, w) <= c.maxRestarts;
    }
    InAppend(s.past.windows, v, v);
  }

  lemma BeginKeeps(c: Config, s: State, at: Time, pending: bool)
    requires Inv(c, s) && s.now <= at && ShouldRestart(c, s.health, at) && !s.pc.Restarting?
    ensures Inv(c, Begin(c, s, at, pending))
  {
    hide Open, Apart, Placed, Budgeted, Permitted;
    BeginOpen(c, s, at, pending);
    BeginPlaced(c, s, at, pending);
    BeginBudgeted(c, s, at, pending);
  }

  lemma RetryKeeps(c: Config, s: State, at: Time, pending: bool, prereq: bool)
    requires Inv(c, s) && s.now <= at && s.pc.Idle?
    ensures Inv(c, Retry(c, s, at, pending, prereq))
  {
    hide Inv, Backoff;
    if ShouldRestart(c, s.health, at) && BackedOff(c, s.health, at) && !prereq {
      BeginKeeps(c, s, at, pending);
    } else {
      CalmKeeps(c, s, Retry(c, s, at, pending, prereq));
    }
  }

  lemma LookKeeps(c: Config, s: State, at: Time, seen: Seen, prereq: bool)
    requires Inv(c, s) && s.now <= at && s.pc.Idle?
    ensures Inv(c, LookNext(c, s, at, seen, prereq))
  {
    if seen.Absent? || (seen.Unhealthy? && s.health.circuitOpenSince.None?) {
      RetryKeeps(c, s, at, seen.Absent?, prereq);
    } else if seen.Stopped? {
      var t := s.(health := s.health.(circuitOpenSince := None));
      CalmKeeps(c, s, t);
      RetryKeeps(c, t, at, false, prereq);
    } else {
      CalmKeeps(c, s, LookNext(c, s, at, seen, prereq));
    }
  }

  lemma SettleKeeps(c: Config, s: State, at: Time, ok: bool)
    requires Inv(c, s) && s.now <= at && !s.pc.Idle?
    ensures Inv(c, SettleNext(c, s, at, ok))
  {
    if s.pc.Prerequisite? && ok {
      BeginKeeps(c, s, at, s.pc.pending);
    } else {
      CalmKeeps(c, s, SettleNext(c, s, at, ok));
    }
  }

  lemma StepKeeps(c: Config, s: State, a: Action)
    requires Inv(c, s) && Enabled(s, a)
    ensures Inv(c, Next(c, s, a))
  {
    match a
    case Look(at, seen, prereq) => LookKeeps(c, s, at, seen, prereq);
    case Settle(at, ok) => SettleKeeps(c, s, at, ok);
  }

  lemma {:induction false} Always(c: Config, r: seq<State>, acts: seq<Action>, i: nat)
    requires Run(c, r, acts) && i < |r|
    ensures Inv(c, r[i])
  {
    if i > 0 {
      Always(c, r, acts, i - 1);
      StepKeeps(c, r[i - 1], acts[i - 1]);
    }
  }

  // ---- The results ----

  /** Between two window openings there are at most `maxRestarts` attempts, and openings are more than a restart
      window apart. */
  lemma RestartBudget(c: Config, r: seq<State>, acts: seq<Action>, i: nat, w: nat)
    requires Run(c, r, acts) && i < |r|
    ensures In(r[i].past.windows, w) <= c.maxRestarts && Apart(c, r[i].past.openings)
    ensures Placed(r[i].past, r[i].now)
  {
    Always(c, r, acts, i);
  }

  /** Attempts that start between two times, both included. */
  function Between(starts: seq<Time>, from: Time, to: Time): nat {
    if starts == [] then 0
    else
      var n := |starts| - 1;
      Between(starts[..n], from, to) + if from <= starts[n] <= to then 1 else 0
  }

  lemma {:induction false} TwoWindows(starts: seq<Time>, windows: seq<nat>, from: Time, to: Time, w: nat)
    requires |starts| == |windows|
    requires forall i :: 0 <= i < |starts| && from <= starts[i] <= to ==> windows[i] == w || windows[i] == w + 1
    ensures Between(starts, from, to) <= In(windows, w) + In(windows, w + 1)
  {
    if starts != [] {
      var n := |starts| - 1;
      TwoWindows(starts[..n], windows[..n], from, to, w);
    }
  }

  lemma {:induction false} FirstBetween(starts: seq<Time>, from: Time, to: Time) returns (k: nat)
    ensures k <= |starts| && (k < |starts| ==> from <= starts[k] <= to)
    ensures forall i :: 0 <= i < k ==> !(from <= starts[i] <= to)
  {
    k := 0;
    while k < |starts| && !(from <= starts[k] <= to)
      invariant k <= |starts| && forall i :: 0 <= i < k ==> !(from <= starts[i] <= to)
    {
      k := k + 1;
    }
  }

  lemma NeighbouringWindows(c: Config, p: Past, now: Time, from: Time, k: nat, i: nat)
    requires Apart(c, p.openings) && Placed(p, now) && k <= i < |p.starts|
    requires from <= p.starts[k] && p.starts[i] <= from + c.restartWindow
    ensures p.windows[k] <= p.windows[i] <= p.windows[k] + 1
  {
    var w := p.windows[k] + 1;
    assert w < |p.openings| ==> p.starts[k] <= p.openings[w];
    assert forall v :: w < v < |p.openings| ==> p.openings[v] - p.openings[w] > c.restartWindow;
  }

  /** Any span of the length of the restart window sees at most twice `maxRestarts` attempts. */
  lemma SpanBudget(c: Config, r: seq<State>, acts: seq<Action>, i: nat, from: Time)
    requires Run(c, r, acts) && i < |r|
    ensures Between(r[i].past.starts, from, from + c.restartWindow) <= 2 * c.maxRestarts
  {
    Always(c, r, acts, i);
    var p := r[i].past;
    var k := FirstBetween(p.starts, from, from + c.restartWindow);
    var w := if k < |p.starts| then p.windows[k] else 0;
    forall j | 0 <= j < |p.starts| && from <= p.starts[j] <= from + c.restartWindow
      ensures p.windows[j] == w || p.windows[j] == w + 1
    {
      NeighbouringWindows(c, p, r[i].now, from, k, j);
    }
    TwoWindows(p.starts, p.windows, from, from + c.restartWindow, w);
  }

  // ---- When no attempt is possible any more ----

  /** `maxRestarts` failures with no window open. */
  predicate LockedOut(c: Config, s: State) {
    s.health.windowStart.None? && s.health.restartCount >= c.maxRestarts && !s.pc.Prerequisite? && !s.pc.Restarting?
  }

  /** From an idle state a stopped backend is restarted, given time, exactly if it is not locked out. */
  lemma AttemptPossibleIff(c: Config, s: State)
    requires s.pc.Idle?
    ensures (exists at :: s.now <= at && Next(c, s, Look(at, Stopped, false)).pc.Restarting?) <==> !LockedOut(c, s)
  {
    if !LockedOut(c, s) {
      var h := s.health;
      var last := if h.lastRestart.Some? then h.lastRestart.value else 0;
      var since := if h.windowStart.Some? then h.windowStart.value else 0;
      var at := s.now + last + since + c.restartWindow + 1 + Backoff(c, h.restartCount);
      assert Next(c, s, Look(at, Stopped, false)).pc.Restarting?;
    }
  }

  lemma StaysLockedOut(c: Config, s: State, a: Action)
    requires LockedOut(c, s) && Enabled(s, a)
    ensures LockedOut(c, Next(c, s, a)) && Next(c, s, a).past.starts == s.past.starts
  {
  }

  /** And a backend locked out stays so, whatever happens: no attempt is made any more. */
  lemma {:induction false} LockedOutForever(c: Config, r: seq<State>, acts: seq<Action>, i: nat, j: nat)
    requires Run(c, r, acts) && i <= j < |r| && LockedOut(c, r[i])
    ensures LockedOut(c, r[j]) && r[j].past.starts == r[i].past.starts
  {
    if i < j {
      LockedOutForever(c, r, acts, i, j - 1);
      StaysLockedOut(c, r[j - 1], acts[j - 1]);
    }
  }

  ghost predicate Reached(c: Config, s: State) { exists r, acts :: Run(c, r, acts) && r[|acts|] == s }

  lemma Continue(c: Config, s: State, a: Action)
    requires Reached(c, s) && Enabled(s, a)
    ensures Reached(c, Next(c, s, a))
  {
    var r, acts :| Run(c, r, acts) && r[|acts|] == s;
    var r', acts' := r + [Next(c, s, a)], acts + [a];
    assert Run(c, r', acts') && r'[|acts'|] == Next(c, s, a);
  }

  /** Failing prerequisites lock a backend out before a single attempt. */
  lemma {:induction false} PrerequisitesLockOut(c: Config, n: nat) returns (s: State)
    requires n <= c.maxRestarts
    ensures Reached(c, s) && s.pc.Idle? && s.past.starts == [] && s.health.windowStart.None?
    ensures s.health.restartCount == n && (n == c.maxRestarts ==> LockedOut(c, s))
  {
    if n == 0 {
      s := INITIAL;
      var r, acts: seq<Action> := [INITIAL], [];
      assert Run(c, r, acts) && r[|acts|] == s;
    } else {
      s := PrerequisitesLockOut(c, n - 1);
      var last := if s.health.lastRestart.Some? then s.health.lastRestart.value else 0;
      var a := Look(s.now + last + Backoff(c, n - 1), Absent, true);
      Continue(c, s, a);
      s := Next(c, s, a);
      a := Settle(s.now, false);
      Continue(c, s, a);
      s := Next(c, s, a);
    }
  }
}
