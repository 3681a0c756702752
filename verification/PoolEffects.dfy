/** What the calls of the pool achieve, whatever runs beside them. */
module PoolEffects {
  import opened Pool
  import opened PoolWakeups
  import opened PoolIsolation

  /** The step that takes the run from r[m] to r[m + 1] is task t's. */
  predicate Moves(acts: seq<Action>, m: nat, t: nat) { m < |acts| && acts[m].Advance? && acts[m].t == t }

  // ---- Tasks ----

  lemma StepTasks(s: State, a: Action, t: nat)
    requires Enabled(s, a) && t < |s.tasks|
    ensures var u := Next(s, a).tasks; t < |u| && u[t].session == s.tasks[t].session
    ensures (a.Advance? && a.t == t) || Next(s, a).tasks[t].pc == s.tasks[t].pc
    ensures a.Advance? && a.t == t ==>
              Next(s, a).tasks[t].pc == StepPlan(s, t, a.ok).pc && Next(s, a).shared == StepPlan(s, t, a.ok).shared
  {
    if a.Advance? { ApplyKeeps(s, a.t, StepPlan(s, a.t, a.ok), a.who, t); }
  }

  lemma RunStep(r: seq<State>, acts: seq<Action>, m: nat, t: nat)
    requires Run(r, acts) && m < |acts| && t < |r[m].tasks|
    ensures t < |r[m + 1].tasks| && r[m + 1].tasks[t].session == r[m].tasks[t].session
    ensures Moves(acts, m, t) || r[m + 1].tasks[t].pc == r[m].tasks[t].pc
    ensures Moves(acts, m, t) ==>
              && !r[m].tasks[t].pc.Done?
              && r[m + 1].tasks[t].pc == StepPlan(r[m], t, acts[m].ok).pc
              && r[m + 1].shared == StepPlan(r[m], t, acts[m].ok).shared
  {
    StepTasks(r[m], acts[m], t);
  }

  lemma {:induction false} StillThere(r: seq<State>, acts: seq<Action>, i: nat, j: nat, t: nat)
    requires Run(r, acts) && i <= j < |r| && t < |r[i].tasks|
    ensures t < |r[j].tasks| && r[j].tasks[t].session == r[i].tasks[t].session
  {
    if i < j {
      StillThere(r, acts, i, j - 1, t);
      RunStep(r, acts, j - 1, t);
    }
  }

  lemma PlaceMoved(r: seq<State>, acts: seq<Action>, i: nat, j: nat, x: Instance)
    requires Run(r, acts) && i <= j < |r| && x < |r[i].shared.places|
    ensures x < |r[j].shared.places| && Later(r[i].shared.places[x], r[j].shared.places[x])
  {
    RunForward(r, acts, i, j);
  }

  // ---- stop_all ----

  /** Where a `stop_all` is: nothing drained yet, idle ones drained, all drained. */
  function Stage(pc: Pc): nat {
    match pc
    case SIdle => 0
    case SAssigned(_) => 1
    case _ => 2
  }

  predicate Stopping(pc: Pc) { pc.SIdle? || pc.SAssigned? || pc.SRead? || pc.SAdd? || pc.SNotify? || pc.Done? }

  /** The first drain leaves nothing idle, the second nothing assigned. */
  lemma DrainSteps(s: State, t: nat, ok: bool)
    requires Located(s) && t < |s.tasks| && Stopping(s.tasks[t].pc) && !s.tasks[t].pc.Done?
    ensures var p := StepPlan(s, t, ok);
      Stopping(p.pc) && Stage(s.tasks[t].pc) <= Stage(p.pc) <= Stage(s.tasks[t].pc) + 1
    ensures var p := StepPlan(s, t, ok);
      s.tasks[t].pc.SIdle? ==> forall x :: 0 <= x < |p.shared.places| ==> !p.shared.places[x].Idle?
    ensures var p := StepPlan(s, t, ok);
      s.tasks[t].pc.SAssigned? ==> forall x :: 0 <= x < |p.shared.places| ==> !p.shared.places[x].Assigned?
  {
    if s.tasks[t].pc.SAssigned? {
      forall x | 0 <= x < |s.shared.places| && s.shared.places[x].Assigned? ensures x in s.shared.assignedTo.Values {
        assert s.shared.assignedTo[s.shared.places[x].session] == x;
      }
    }
  }

  /** What a `stop_all` that began in r[i] has done with one instance by r[j]. */
  ghost predicate Drained(r: seq<State>, i: nat, j: nat, t: nat, x: Instance)
    requires i <= j < |r| && t < |r[j].tasks| && x < |r[i].shared.places|
  {
    var p, pc := r[i].shared.places[x], r[j].tasks[t].pc;
    && x < |r[j].shared.places| && Stopping(pc)
    && (Stage(pc) >= 1 && p.Idle? ==> !r[j].shared.places[x].Idle?)
    && (Stage(pc) >= 2 && p.Assigned? ==> r[j].shared.places[x].Retired?)
  }

  lemma DrainedStep(r: seq<State>, acts: seq<Action>, i: nat, j: nat, t: nat, x: Instance)
    requires Run(r, acts) && i <= j < |acts| && t < |r[j].tasks| && x < |r[i].shared.places|
    requires Drained(r, i, j, t, x)
    ensures t < |r[j + 1].tasks| && Drained(r, i, j + 1, t, x)
  {
    RunLocated(r, acts, j);
    RunStep(r, acts, j, t);
    PlaceMoved(r, acts, i, j, x);
    PlaceMoved(r, acts, j, j + 1, x);
    if Moves(acts, j, t) { DrainSteps(r[j], t, acts[j].ok); }
  }

  lemma {:induction false} DrainedSince(r: seq<State>, acts: seq<Action>, i: nat, j: nat, t: nat, x: Instance)
    requires Run(r, acts) && i <= j < |r| && t < |r[i].tasks| && r[i].tasks[t].pc.SIdle? && x < |r[i].shared.places|
    ensures t < |r[j].tasks| && Drained(r, i, j, t, x)
  {
    if i < j {
      DrainedSince(r, acts, i, j - 1, t, x);
      DrainedStep(r, acts, i, j - 1, t, x);
    }
  }

  /** When a `stop_all` is over, every instance that was assigned when it began is stopped, and none that was idle then
      is idle: it is stopped, or an acquire took it meanwhile. */
  lemma StopAllStops(r: seq<State>, acts: seq<Action>, i: nat, j: nat, t: nat, x: Instance)
    requires Run(r, acts) && i <= j < |r| && t < |r[i].tasks| && r[i].tasks[t].pc.SIdle?
    requires t < |r[j].tasks| && r[j].tasks[t].pc.Done? && x < |r[i].shared.places|
    ensures x < |r[j].shared.places|
    ensures r[i].shared.places[x].Assigned? ==> r[j].shared.places[x].Retired?
    ensures r[i].shared.places[x].Idle? ==>
              var p := r[j].shared.places[x]; p.Retired? || p.Claimed? || p.Assigned?
  {
    DrainedSince(r, acts, i, j, t, x);
    PlaceMoved(r, acts, i, j, x);
  }

  // ---- release ----

  /** What a release that began in r[i] has done with the instance its session had then. */
  ghost predicate GivenUp(r: seq<State>, j: nat, t: nat, x: Instance)
    requires j < |r| && t < |r[j].tasks|
  {
    var pc := r[j].tasks[t].pc;
    && x < |r[j].shared.places| && (Releasing(pc) || pc.Done?)
    && (!pc.RRemove? ==> r[j].shared.places[x].Retired?)
  }

  /** The session's instance, if it still is that, is the one a release takes. */
  lemma RemoveStep(s: State, t: nat, ok: bool, x: Instance)
    requires Located(s) && t < |s.tasks| && s.tasks[t].pc.RRemove? && x < |s.shared.places|
    requires s.shared.places[x] == Assigned(s.tasks[t].session)
    ensures var h := StepPlan(s, t, ok).shared; x < |h.places| && h.places[x].Retired?
  {
    assert s.shared.places[x].session in s.shared.assignedTo && s.shared.assignedTo[s.shared.places[x].session] == x;
  }

  lemma ReleaseGoesOn(s: State, t: nat, ok: bool)
    requires t < |s.tasks| && Releasing(s.tasks[t].pc)
    ensures var pc := StepPlan(s, t, ok).pc; !pc.RRemove? && (Releasing(pc) || pc.Done?)
  {
  }

  lemma GivenUpStep(r: seq<State>, acts: seq<Action>, i: nat, j: nat, t: nat, x: Instance)
    requires Run(r, acts) && i <= j < |acts| && t < |r[i].tasks| && t < |r[j].tasks| && x < |r[i].shared.places|
    requires r[i].shared.places[x] == Assigned(r[i].tasks[t].session) && GivenUp(r, j, t, x)
    ensures t < |r[j + 1].tasks| && GivenUp(r, j + 1, t, x)
  {
    RunLocated(r, acts, j);
    RunStep(r, acts, j, t);
    StillThere(r, acts, i, j, t);
    PlaceMoved(r, acts, i, j, x);
    PlaceMoved(r, acts, j, j + 1, x);
    if Moves(acts, j, t) {
      ReleaseGoesOn(r[j], t, acts[j].ok);
      if r[j].tasks[t].pc.RRemove? && !r[j].shared.places[x].Retired? { RemoveStep(r[j], t, acts[j].ok, x); }
    }
  }

  /** When a release is over, the instance its session had when it began is stopped. */
  lemma {:induction false} ReleaseStops(r: seq<State>, acts: seq<Action>, i: nat, j: nat, t: nat, x: Instance)
    requires Run(r, acts) && i <= j < |r| && t < |r[i].tasks| && r[i].tasks[t].pc.RRemove? && x < |r[i].shared.places|
    requires r[i].shared.places[x] == Assigned(r[i].tasks[t].session)
    ensures t < |r[j].tasks| && GivenUp(r, j, t, x)
    ensures r[j].tasks[t].pc.Done? ==> r[j].shared.places[x].Retired?
  {
    if i < j {
      ReleaseStops(r, acts, i, j - 1, t, x);
      GivenUpStep(r, acts, i, j - 1, t, x);
    }
  }

  /** A release that nobody disturbs and whose spawn succeeds: what is left of it to do shows in the pool. */
  ghost predicate Progress(h: Shared, g: Shared, k: Session, minIdle: nat, pc: Pc) {
    match pc
    case RRemove => g == h
    case RStop => k !in g.assignedTo && g.idle == h.idle && g.permits == h.permits
    case RNotify => k !in g.assignedTo && g.idle == h.idle && g.permits == h.permits + 1
    case RCount => k !in g.assignedTo && g.idle == h.idle && g.permits == h.permits + 1
    case RPermit => k !in g.assignedTo && g.idle == h.idle && g.permits == h.permits + 1 && |h.idle| < minIdle
    case RSpawn(_) => k !in g.assignedTo && g.idle == h.idle && g.permits == h.permits && |h.idle| < minIdle
    case RPush(_) => k !in g.assignedTo && g.idle == h.idle && g.permits == h.permits && |h.idle| < minIdle
    case RNotifyLast =>
      k !in g.assignedTo && |g.idle| == |h.idle| + 1 && g.permits == h.permits && |h.idle| < minIdle
    case Done =>
      && k !in g.assignedTo
      && |g.idle| == |h.idle| + (if |h.idle| < minIdle then 1 else 0)
      && g.permits == h.permits + (if |h.idle| < minIdle then 0 else 1)
    case _ => false
  }

  lemma ProgressStep(s: State, t: nat, h: Shared)
    requires t < |s.tasks| && !s.tasks[t].pc.Done? && s.tasks[t].session in h.assignedTo
    requires Progress(h, s.shared, s.tasks[t].session, s.minIdle, s.tasks[t].pc)
    ensures var p := StepPlan(s, t, true); Progress(h, p.shared, s.tasks[t].session, s.minIdle, p.pc)
  {
  }

  lemma SameMinIdle(s: State, a: Action)
    requires Enabled(s, a)
    ensures Next(s, a).minIdle == s.minIdle
  {
  }

  lemma AloneStep(r: seq<State>, acts: seq<Action>, m: nat, t: nat, h: Shared)
    requires Run(r, acts) && m + 1 < |r| && t < |r[m].tasks| && Moves(acts, m, t) && acts[m].ok
    requires r[m].tasks[t].session in h.assignedTo
    requires Progress(h, r[m].shared, r[m].tasks[t].session, r[m].minIdle, r[m].tasks[t].pc)
    ensures t < |r[m + 1].tasks| && r[m + 1].minIdle == r[m].minIdle
    ensures r[m + 1].tasks[t].session == r[m].tasks[t].session
    ensures Progress(h, r[m + 1].shared, r[m].tasks[t].session, r[m].minIdle, r[m + 1].tasks[t].pc)
  {
    hide Init, Progress, StepPlan, Next;
    RunStep(r, acts, m, t);
    SameMinIdle(r[m], acts[m]);
    ProgressStep(r[m], t, h);
  }

  lemma {:induction false} AloneProgress(r: seq<State>, acts: seq<Action>, i: nat, j: nat, t: nat)
    requires Run(r, acts) && i <= j < |r| && t < |r[i].tasks| && r[i].tasks[t].pc.RRemove?
    requires r[i].tasks[t].session in r[i].shared.assignedTo
    requires forall m :: i <= m < j ==> Moves(acts, m, t) && acts[m].ok
    ensures t < |r[j].tasks| && r[j].minIdle == r[i].minIdle && r[j].tasks[t].session == r[i].tasks[t].session
    ensures Progress(r[i].shared, r[j].shared, r[i].tasks[t].session, r[i].minIdle, r[j].tasks[t].pc)
  {
    if i < j {
      hide Run, Progress;
      AloneProgress(r, acts, i, j - 1, t);
      assert Moves(acts, j - 1, t);
      AloneStep(r, acts, j - 1, t, r[i].shared);
    }
  }

  /** An undisturbed release frees its capacity, and spends it again on an idle instance exactly if fewer than
      `minIdle` were idle. */
  lemma ReleaseReplenishes(r: seq<State>, acts: seq<Action>, i: nat, j: nat, t: nat)
    requires Run(r, acts) && i <= j < |r| && t < |r[i].tasks| && r[i].tasks[t].pc.RRemove?
    requires r[i].tasks[t].session in r[i].shared.assignedTo
    requires forall m :: i <= m < j ==> Moves(acts, m, t) && acts[m].ok
    requires t < |r[j].tasks| && r[j].tasks[t].pc.Done?
    ensures r[i].tasks[t].session !in r[j].shared.assignedTo
    ensures var few := |r[i].shared.idle| < r[i].minIdle;
      && |r[j].shared.idle| == |r[i].shared.idle| + (if few then 1 else 0)
      && r[j].shared.permits == r[i].shared.permits + (if few then 0 else 1)
  {
    AloneProgress(r, acts, i, j, t);
  }

  // ---- acquire ----

  /** The acquire gives up: it timed out asleep, or its spawn failed. */
  predicate GivesUp(r: seq<State>, acts: seq<Action>, m: nat, t: nat) {
    && m < |r| && Moves(acts, m, t) && t < |r[m].tasks|
    && ((r[m].tasks[t].pc.ASleep? && !acts[m].ok) || r[m].tasks[t].pc.AFailNotify?)
  }

  /** The acquire returns, and its session has an instance at that moment. */
  predicate Serves(r: seq<State>, acts: seq<Action>, m: nat, t: nat) {
    && m + 1 < |r| && Moves(acts, m, t) && t < |r[m + 1].tasks| && r[m + 1].tasks[t].pc.AReturn?
    && r[m + 1].tasks[t].session in r[m + 1].shared.assignedTo
  }

  lemma ReturnStep(r: seq<State>, acts: seq<Action>, m: nat, t: nat)
    requires Run(r, acts) && m < |acts| && t < |r[m].tasks| && Registered(r[m].tasks[t].pc)
    requires !r[m].tasks[t].pc.AReturn? && Moves(acts, m, t)
    ensures t < |r[m + 1].tasks| && Registered(r[m + 1].tasks[t].pc)
    ensures r[m + 1].tasks[t].pc.AReturn? ==> Serves(r, acts, m, t) || GivesUp(r, acts, m, t)
  {
    hide Init, Enabled, Next;
    RunStep(r, acts, m, t);
  }

  lemma OtherStep(r: seq<State>, acts: seq<Action>, m: nat, t: nat)
    requires Run(r, acts) && m < |acts| && t < |r[m].tasks|
    requires r[m].tasks[t].pc.AReturn? || r[m].tasks[t].pc.Done? || !Moves(acts, m, t)
    ensures t < |r[m + 1].tasks|
    ensures r[m + 1].tasks[t].pc == r[m].tasks[t].pc || (r[m].tasks[t].pc.AReturn? && r[m + 1].tasks[t].pc.Done?)
  {
    hide Init, Enabled, Next;
    RunStep(r, acts, m, t);
  }

  /** It did one or the other since r[i]. */
  predicate Settled(r: seq<State>, acts: seq<Action>, i: nat, j: nat, t: nat) {
    exists m :: i <= m < j && (Serves(r, acts, m, t) || GivesUp(r, acts, m, t))
  }

  lemma SettledLater(r: seq<State>, acts: seq<Action>, i: nat, j: nat, t: nat)
    requires Settled(r, acts, i, j, t)
    ensures Settled(r, acts, i, j + 1, t)
  {
    hide Serves, GivesUp;
    var m :| i <= m < j && (Serves(r, acts, m, t) || GivesUp(r, acts, m, t));
  }

  lemma SameLength(r: seq<State>, acts: seq<Action>)
    requires Run(r, acts)
    ensures |r| == |acts| + 1
  {
  }

  lemma SettledStep(r: seq<State>, acts: seq<Action>, i: nat, j: nat, t: nat)
    requires Run(r, acts) && i <= j < |acts| && t < |r[j].tasks|
    requires Registered(r[j].tasks[t].pc) || r[j].tasks[t].pc.Done?
    requires r[j].tasks[t].pc.AReturn? || r[j].tasks[t].pc.Done? ==> Settled(r, acts, i, j, t)
    ensures t < |r[j + 1].tasks| && (Registered(r[j + 1].tasks[t].pc) || r[j + 1].tasks[t].pc.Done?)
    ensures r[j + 1].tasks[t].pc.AReturn? || r[j + 1].tasks[t].pc.Done? ==> Settled(r, acts, i, j + 1, t)
  {
    hide Init, Enabled, Next, Serves, GivesUp, Moves;
    var pc := r[j].tasks[t].pc;
    if Registered(pc) && !pc.AReturn? && Moves(acts, j, t) {
      ReturnStep(r, acts, j, t);
    } else {
      OtherStep(r, acts, j, t);
      if pc.AReturn? || pc.Done? { SettledLater(r, acts, i, j, t); }
    }
  }

  /** An acquire that is over was served with an instance of its session's, unless it gave up. */
  lemma {:induction false} AcquireServes(r: seq<State>, acts: seq<Action>, i: nat, j: nat, t: nat)
    requires Run(r, acts) && i <= j < |r| && t < |r[i].tasks| && r[i].tasks[t].pc.ACheck?
    ensures t < |r[j].tasks| && (Registered(r[j].tasks[t].pc) || r[j].tasks[t].pc.Done?)
    ensures r[j].tasks[t].pc.AReturn? || r[j].tasks[t].pc.Done? ==> Settled(r, acts, i, j, t)
  {
    if i < j {
      hide Run, Settled;
      SameLength(r, acts);
      AcquireServes(r, acts, i, j - 1, t);
      SettledStep(r, acts, i, j - 1, t);
    }
  }

  // ---- The idle queue ----

  predicate Behind(idle: seq<Instance>, x: Instance, y: Instance) {
    exists a, b :: 0 <= a < b < |idle| && idle[a] == x && idle[b] == y
  }

  /** Instances are taken at the front, pushed at the back, or drained. */
  lemma StepIdle(s: State, t: nat, ok: bool)
    requires t < |s.tasks|
    ensures var old', new' := s.shared.idle, StepPlan(s, t, ok).shared.idle;
      || new' == old' || new' == [] || (old' != [] && new' == old'[1..])
      || exists z :: new' == old' + [z]
  {
  }

  lemma StillBehind(idle: seq<Instance>, more: seq<Instance>, x: Instance, y: Instance)
    requires Behind(idle, x, y) && x in more
    requires forall a, b :: 0 <= a < b < |idle| ==> idle[a] != idle[b]
    requires more == idle || (idle != [] && more == idle[1..]) || exists z :: more == idle + [z]
    ensures Behind(more, x, y)
  {
    var a, b :| 0 <= a < b < |idle| && idle[a] == x && idle[b] == y;
    if idle != [] && more == idle[1..] {
      var c :| 0 <= c < |more| && more[c] == x;
      assert idle[c + 1] == x;
      assert more[a - 1] == x && more[b - 1] == y;
    } else {
      assert more[a] == x && more[b] == y;
    }
  }

  lemma StartIdle(s: State, a: Action)
    requires Enabled(s, a) && !a.Advance?
    ensures Next(s, a).shared == s.shared
  {
  }

  lemma BehindStep(r: seq<State>, acts: seq<Action>, i: nat, j: nat, x: Instance, y: Instance)
    requires Run(r, acts) && i <= j < |acts| && x in r[i].shared.idle && Behind(r[j].shared.idle, x, y)
    requires x in r[j + 1].shared.idle
    ensures Behind(r[j + 1].shared.idle, x, y)
  {
    RunLocated(r, acts, j);
    if acts[j].Advance? {
      StepTasks(r[j], acts[j], acts[j].t);
      StepIdle(r[j], acts[j].t, acts[j].ok);
      StillBehind(r[j].shared.idle, r[j + 1].shared.idle, x, y);
    } else {
      StartIdle(r[j], acts[j]);
    }
  }

  lemma NotIdleAgain(r: seq<State>, acts: seq<Action>, i: nat, m: nat, j: nat, x: Instance)
    requires Run(r, acts) && i <= m <= j < |r| && x in r[i].shared.idle && x in r[j].shared.idle
    ensures x in r[m].shared.idle
  {
    RunLocated(r, acts, i);
    RunLocated(r, acts, m);
    RunLocated(r, acts, j);
    PlaceMoved(r, acts, i, m, x);
    PlaceMoved(r, acts, m, j, x);
  }

  /** Idle instances leave the queue in the order they entered it. */
  lemma {:induction false} IdleInOrder(r: seq<State>, acts: seq<Action>, i: nat, j: nat, x: Instance, y: Instance)
    requires Run(r, acts) && i <= j < |r| && Behind(r[i].shared.idle, x, y)
    ensures y !in r[j].shared.idle ==> x !in r[j].shared.idle
    ensures x in r[j].shared.idle ==> Behind(r[j].shared.idle, x, y)
  {
    if i < j && x in r[j].shared.idle {
      hide Init, Enabled, Next, Behind;
      NotIdleAgain(r, acts, i, j - 1, j, x);
      IdleInOrder(r, acts, i, j - 1, x, y);
      BehindStep(r, acts, i, j - 1, x, y);
    }
  }
}
