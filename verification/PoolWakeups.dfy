/**
 No wake-up is lost: as long as an acquire sleeps un-notified beside a free permit or an idle
 instance, somebody else owes a notification or carries one.

 The proof counts.  Each freed permit or pushed instance owes one notification; the notification
 is carried by the waiter it reaches, by the acquire it wakes until that one has looked again, and
 by the next waiter when it is handed on.  The one leak is an acquire that was woken and
 then returns because its session got an instance meanwhile: it swallows the notification.
 */
module PoolWakeups {
  import opened Pool
  import opened PoolCapacity
  import opened Sums

  /** Between freeing something and notifying. */
  function Owes(pc: Pc): nat {
    match pc
    case AEvictNotify | AFailNotify | RNotify | RNotifyLast => 1
    case SNotify(n) => n
    case _ => 0
  }

  /** The notifications a task carries, not counting one it consumed before it last looked at the idle queue. */
  function Fresh(t: Task): nat {
    Owes(t.pc)
    + (if Registered(t.pc) && t.note == Passable then 1 else 0)
    + (if t.pc.ASleep? && t.note == Spent then 1 else 0)
    + (if t.woken && (t.pc.ACheck? || t.pc.AIdle?) then 1 else 0)
  }

  /** All notifications a task owes or carries. */
  function Weight(t: Task): nat {
    Fresh(t) + if t.woken && t.pc.APermit? then 1 else 0
  }

  predicate Sleeper(t: Task) { Waiting(t) && t.pc.ASleep? }

  predicate PastIdle(t: Task) { Waiting(t) && (t.pc.ASleep? || t.pc.APermit?) }

  function Free(h: Shared): nat { h.permits + |h.idle| }

  predicate SomeSleeper(ts: seq<Task>) { exists i :: 0 <= i < |ts| && Sleeper(ts[i]) }

  predicate SomePastIdle(ts: seq<Task>) { exists i :: 0 <= i < |ts| && PastIdle(ts[i]) }

  /** The counting invariant. */
  ghost predicate Covered(s: State) {
    && (SomeSleeper(s.tasks) ==> Free(s.shared) <= Sum(s.tasks, Weight))
    && (SomePastIdle(s.tasks) ==> |s.shared.idle| <= Sum(s.tasks, Fresh))
  }

  /** The property itself: a sleeper beside something free is matched by a task that owes or carries a notification. */
  ghost predicate NoLostWakeup(s: State) {
    SomeSleeper(s.tasks) && Free(s.shared) > 0 ==> exists i :: 0 <= i < |s.tasks| && Weight(s.tasks[i]) > 0
  }

  /** A woken acquire about to return because its session has an instance by now. */
  predicate Swallows(s: State, a: Action) {
    a.Advance? && a.t < |s.tasks| && s.tasks[a.t].pc.ACheck? && s.tasks[a.t].woken
    && s.tasks[a.t].session in s.shared.assignedTo
  }

  // ---- One task's balance ----

  /** A step without a signal never frees more than it takes on to notify.  The exception is an acquire
      that found neither an instance nor a permit and goes to sleep. */
  lemma SilentBalance(s: State, t: nat, ok: bool, who: nat)
    requires Enabled(s, Advance(t, ok, who)) && !Swallows(s, Advance(t, ok, who))
    requires StepPlan(s, t, ok).signal == Silent
    ensures var p := StepPlan(s, t, ok); var u := s.tasks[t].(pc := p.pc);
      && (Free(p.shared) + Weight(s.tasks[t]) <= Free(s.shared) + Weight(u)
          || (s.tasks[t].pc.APermit? && u.pc.ASleep? && p.shared == s.shared && s.shared.permits == 0))
      && (|p.shared.idle| + Fresh(s.tasks[t]) <= |s.shared.idle| + Fresh(u)
          || (s.tasks[t].pc.AIdle? && u.pc.APermit? && p.shared == s.shared && s.shared.idle == []))
      && (PastIdle(u) ==> PastIdle(s.tasks[t]) || s.tasks[t].pc.AIdle?)
      && (Sleeper(u) ==> s.tasks[t].pc.APermit? && PastIdle(s.tasks[t]))
      && (s.tasks[t].pc.APermit? && u.pc.ASleep? ==> Weight(u) >= Fresh(s.tasks[t]))
  {
  }

  /** Who waits after `t` became `u` waited before, or is `u`. */
  lemma WaitersAfter(ts: seq<Task>, t: nat, u: Task)
    requires t < |ts|
    ensures SomeSleeper(ts[t := u]) ==> SomeSleeper(ts) || Sleeper(u)
    ensures SomePastIdle(ts[t := u]) ==> SomePastIdle(ts) || PastIdle(u)
    ensures SomeSleeper(ts) ==> SomePastIdle(ts)
    ensures PastIdle(ts[t]) ==> SomePastIdle(ts)
  {
    if SomeSleeper(ts[t := u]) && !Sleeper(u) {
      var i :| 0 <= i < |ts| && Sleeper(ts[t := u][i]);
      assert Sleeper(ts[i]);
    }
    if SomePastIdle(ts[t := u]) && !PastIdle(u) {
      var i :| 0 <= i < |ts| && PastIdle(ts[t := u][i]);
      assert PastIdle(ts[i]);
    }
    if i :| 0 <= i < |ts| && Sleeper(ts[i]) { assert PastIdle(ts[i]); }
  }

  /** A task may change as long as it takes on as much as it frees. */
  lemma SwapCovers(s: State, t: nat, u: Task, h: Shared, stored: bool)
    requires Covered(s) && t < |s.tasks| && !Sleeper(u)
    requires Free(h) + Weight(s.tasks[t]) <= Free(s.shared) + Weight(u)
    requires |h.idle| == 0 || (|h.idle| + Fresh(s.tasks[t]) <= |s.shared.idle| + Fresh(u) && !PastIdle(u))
    ensures Covered(s.(shared := h, tasks := s.tasks[t := u], stored := stored))
  {
    hide Sum;
    SumUpdate(s.tasks, Weight, t, u);
    SumUpdate(s.tasks, Fresh, t, u);
    WaitersAfter(s.tasks, t, u);
  }

  /** An acquire that found nothing goes to sleep: what is idle by now was announced after it looked. */
  lemma SleepCovers(s: State, t: nat)
    requires Covered(s) && t < |s.tasks| && s.tasks[t].pc.APermit? && s.shared.permits == 0
    ensures Covered(s.(tasks := s.tasks[t := s.tasks[t].(pc := ASleep)]))
  {
    hide Sum;
    var u := s.tasks[t].(pc := ASleep);
    SumUpdate(s.tasks, Weight, t, u);
    SumUpdate(s.tasks, Fresh, t, u);
    SumSurplus(s.tasks, Weight, Fresh, t);
    WaitersAfter(s.tasks, t, u);
  }

  lemma SilentCovers(s: State, a: Action)
    requires Covered(s) && Enabled(s, a) && !Swallows(s, a) && a.Advance?
    requires StepPlan(s, a.t, a.ok).signal == Silent
    ensures Covered(Next(s, a))
  {
    hide Covered;
    var p := StepPlan(s, a.t, a.ok);
    SilentBalance(s, a.t, a.ok, a.who);
    if s.tasks[a.t].pc.APermit? && p.pc.ASleep? {
      SleepCovers(s, a.t);
    } else {
      SwapCovers(s, a.t, s.tasks[a.t].(pc := p.pc), p.shared, s.stored);
    }
  }

  // ---- Signals ----

  /** `notify_one`, or handing a notification on: a unit of weight moves from the task to a waiter, if there is one. */
  lemma OneCovers(s: State, t: nat, who: nat, u: Task)
    requires Covered(s) && t < |s.tasks| && !Waiting(s.tasks[t]) && !Waiting(u)
    requires SomeWaiting(s.tasks) ==> who < |s.tasks| && Waiting(s.tasks[who])
    requires Weight(u) + 1 >= Weight(s.tasks[t]) && Fresh(u) + 1 >= Fresh(s.tasks[t])
    ensures Covered(NotifyOne(s.(tasks := s.tasks[t := u]), who))
  {
    hide Sum;
    var ts := s.tasks[t := u];
    if SomeWaiting(s.tasks) {
      var v := ts[who].(note := Passable);
      SumUpdate(s.tasks, Weight, t, u);
      SumUpdate(s.tasks, Fresh, t, u);
      SumUpdate(ts, Weight, who, v);
      SumUpdate(ts, Fresh, who, v);
      WaitersAfter(s.tasks, t, u);
      WaitersAfter(ts, who, v);
    } else {
      forall i | 0 <= i < |ts| ensures !Waiting(ts[i]) { assert i != t ==> !Waiting(s.tasks[i]); }
    }
  }

  lemma DropCovers(s: State, t: nat, who: nat)
    requires Covered(s) && t < |s.tasks| && (s.tasks[t].pc.AReturn? || s.tasks[t].pc.AAgain?)
    requires SomeWaiting(s.tasks) ==> who < |s.tasks| && Waiting(s.tasks[who])
    ensures Covered(DropNote(s, t, who)) && Weight(DropNote(s, t, who).tasks[t]) == 0
  {
    var u := s.tasks[t].(note := Spent);
    if s.tasks[t].note == Passable { OneCovers(s, t, who, u); } else { SwapCovers(s, t, u, s.shared, s.stored); }
  }

  /** A new future: the weight stays, now carried by the look the acquire is about to take. */
  lemma RegisterCovers(s: State, t: nat, woken: bool)
    requires Covered(s) && t < |s.tasks| && Weight(s.tasks[t]) <= if woken then 1 else 0
    ensures var n := Register(s, t, woken); Covered(n.(tasks := n.tasks[t := n.tasks[t].(pc := ACheck)]))
  {
    var n := Register(s, t, woken);
    SwapCovers(s, t, n.tasks[t].(pc := ACheck), s.shared, false);
    assert n.tasks[t := n.tasks[t].(pc := ACheck)] == s.tasks[t := n.tasks[t].(pc := ACheck)];
  }

  lemma OneStepCovers(s: State, t: nat, who: nat, pc: Pc)
    requires Covered(s) && Enabled(s, Advance(t, true, who)) && (s.tasks[t].pc.RNotify? || s.tasks[t].pc.RNotifyLast?)
    requires pc.RCount? || pc.Done?
    ensures Covered(Apply(s, t, Plan(s.shared, pc, One), who))
  {
    hide Covered;
    var u := s.tasks[t].(pc := pc);
    OneCovers(s, t, who, u);
    assert Apply(s, t, Plan(s.shared, pc, One), who) == NotifyOne(s.(tasks := s.tasks[t := u]), who);
  }

  lemma AllStepCovers(s: State, t: nat, plan: Plan, who: nat)
    requires t < |s.tasks| && plan.signal == All && !plan.pc.ASleep? && !plan.pc.APermit?
    ensures Covered(Apply(s, t, plan, who))
  {
    var ts := Apply(s, t, plan, who).tasks;
    forall i | 0 <= i < |ts| ensures !PastIdle(ts[i]) && !Sleeper(ts[i]) {
      assert i != t ==> ts[i] == Notified(s.tasks[i]);
    }
  }

  lemma ReturnCovers(s: State, t: nat, who: nat)
    requires Covered(s) && t < |s.tasks| && s.tasks[t].pc.AReturn?
    requires SomeWaiting(s.tasks) ==> who < |s.tasks| && Waiting(s.tasks[who])
    ensures var n := DropNote(s, t, who); Covered(n.(tasks := n.tasks[t := n.tasks[t].(pc := Done)]))
  {
    DropCovers(s, t, who);
    var n := DropNote(s, t, who);
    SwapCovers(n, t, n.tasks[t].(pc := Done), n.shared, n.stored);
  }

  lemma SignalCovers(s: State, a: Action)
    requires Covered(s) && Enabled(s, a) && a.Advance?
    requires StepPlan(s, a.t, a.ok).signal != Silent
    ensures Covered(Next(s, a))
  {
    hide Covered;
    var p, t := StepPlan(s, a.t, a.ok), a.t;
    match p.signal
    case One => OneStepCovers(s, t, a.who, p.pc);
    case All => AllStepCovers(s, t, p, a.who);
    case Drop => ReturnCovers(s, t, a.who);
    case Again =>
      DropCovers(s, t, a.who);
      RegisterCovers(DropNote(s, t, a.who), t, false);
    case Wake =>
      RegisterCovers(s, t, true);
  }

  /** A call that starts waits for nothing yet. */
  lemma StartCovers(s: State, a: Action)
    requires Covered(s) && Enabled(s, a) && !a.Advance?
    ensures Covered(Next(s, a))
  {
    hide Sum;
    var ts, us := s.tasks, Next(s, a).tasks;
    var u := us[|ts|];
    assert us == ts + [u] && !PastIdle(u) && !Sleeper(u);
    SumAppend(ts, Weight, u);
    SumAppend(ts, Fresh, u);
    assert forall i :: 0 <= i < |ts| ==> us[i] == ts[i];
  }

  lemma StepCovers(s: State, a: Action)
    requires Covered(s) && Enabled(s, a) && !Swallows(s, a)
    ensures Covered(Next(s, a))
  {
    if !a.Advance? { StartCovers(s, a); }
    else if StepPlan(s, a.t, a.ok).signal == Silent { SilentCovers(s, a); }
    else { SignalCovers(s, a); }
  }

  // ---- Runs ----

  lemma CoveredNotLost(s: State)
    requires Covered(s)
    ensures NoLostWakeup(s)
  {
    if SomeSleeper(s.tasks) && Free(s.shared) > 0 {
      var helper := PositiveSummand(s.tasks, Weight);
    }
  }

  /** Nobody swallows a notification: in every state of the run the property holds. */
  lemma {:induction false} WakeupsNotLost(r: seq<State>, acts: seq<Action>, i: nat)
    requires Run(r, acts) && i < |r|
    requires forall j :: 0 <= j < i ==> !Swallows(r[j], acts[j])
    ensures Covered(r[i]) && NoLostWakeup(r[i])
  {
    if i > 0 {
      WakeupsNotLost(r, acts, i - 1);
      StepCovers(r[i - 1], acts[i - 1]);
    }
    CoveredNotLost(r[i]);
  }

  // ---- Pools of one instance ----

  /** With the only instance assigned nothing is free, so a swallowed notification announced nothing that is left. */
  lemma SwallowAlone(s: State, a: Action)
    requires Conserved(s) && s.max <= 1 && Enabled(s, a) && Swallows(s, a)
    ensures Covered(Next(s, a))
  {
    MapSize(s.shared.assignedTo, s.tasks[a.t].session, 0);
    assert Free(s.shared) == 0;
  }

  lemma {:induction false} SmallPools(r: seq<State>, acts: seq<Action>, i: nat)
    requires Run(r, acts) && i < |r| && r[0].max <= 1
    ensures Covered(r[i]) && NoLostWakeup(r[i])
  {
    if i > 0 {
      SmallPools(r, acts, i - 1);
      CapacityConserved(r, acts, i - 1);
      if Swallows(r[i - 1], acts[i - 1]) {
        SwallowAlone(r[i - 1], acts[i - 1]);
      } else {
        StepCovers(r[i - 1], acts[i - 1]);
      }
    }
    CoveredNotLost(r[i]);
  }

  // ---- Sessions that are not acquired twice at a time ----

  /** No two unfinished acquires share a session. */
  ghost predicate NoOverlap(s: State) {
    forall i, j :: 0 <= i < j < |s.tasks| && Registered(s.tasks[i].pc) && Registered(s.tasks[j].pc)
      ==> s.tasks[i].session != s.tasks[j].session
  }

  /** Past its first look an acquire knows that its session has no instance. */
  predicate Looked(t: Task) { Registered(t.pc) && !t.pc.AReturn? && (t.pc.ACheck? ==> t.woken) }

  ghost predicate Exclusive(s: State) {
    && s.shared.displaced == 0
    && forall i :: 0 <= i < |s.tasks| && Looked(s.tasks[i]) ==> s.tasks[i].session !in s.shared.assignedTo
  }

  /** Only an insert, for its own session, adds an assignment. */
  lemma PlanAssigns(s: State, t: nat, ok: bool)
    requires t < |s.tasks|
    ensures var p, h := StepPlan(s, t, ok), s.shared;
      && (s.tasks[t].pc.AInsert?
          ==> p.shared.assignedTo.Keys == h.assignedTo.Keys + {s.tasks[t].session} && p.pc.AReturn?
              && (s.tasks[t].session !in h.assignedTo ==> p.shared.displaced == h.displaced))
      && (!s.tasks[t].pc.AInsert?
          ==> p.shared.assignedTo.Keys <= h.assignedTo.Keys && p.shared.displaced == h.displaced)
  {
  }

  lemma ApplyKeeps(s: State, t: nat, plan: Plan, who: nat, i: nat)
    requires t < |s.tasks| && i < |s.tasks|
    ensures var u, v := s.tasks[i], Apply(s, t, plan, who).tasks[i];
      && v.session == u.session && (i != t ==> v.pc == u.pc && v.woken == u.woken)
      && (i == t ==> v.pc == plan.pc && v.woken == if plan.signal.Wake? then true
                                                   else if plan.signal.Again? then false else u.woken)
  {
  }

  lemma PlanLooks(s: State, t: nat, ok: bool)
    requires t < |s.tasks|
    ensures var p, u := StepPlan(s, t, ok), s.tasks[t];
      Registered(p.pc) && !p.pc.AReturn? && (p.pc.ACheck? ==> p.signal.Wake?)
      ==> Registered(u.pc) && (u.pc.ACheck? ==> u.session !in s.shared.assignedTo) && !u.pc.AReturn?
  {
  }

  lemma LookedAfter(s: State, a: Action, i: nat)
    requires Enabled(s, a) && a.Advance? && i < |s.tasks| && Looked(Next(s, a).tasks[i])
    ensures Next(s, a).tasks[i].session == s.tasks[i].session && Registered(s.tasks[i].pc)
    ensures Looked(s.tasks[i]) || (i == a.t && s.tasks[i].session !in s.shared.assignedTo)
  {
    var p := StepPlan(s, a.t, a.ok);
    ApplyKeeps(s, a.t, p, a.who, i);
    PlanLooks(s, a.t, a.ok);
    assert p.pc.ACheck? ==> p.signal.Wake? || p.signal.Again?;
  }

  lemma StepExclusive(s: State, a: Action)
    requires Exclusive(s) && NoOverlap(s) && Enabled(s, a)
    ensures !Swallows(s, a) && Exclusive(Next(s, a))
  {
    if a.Advance? {
      PlanAssigns(s, a.t, a.ok);
      forall i | 0 <= i < |Next(s, a).tasks| && Looked(Next(s, a).tasks[i])
        ensures Next(s, a).tasks[i].session !in Next(s, a).shared.assignedTo
      {
        LookedAfter(s, a, i);
      }
    }
  }

  /** In runs without overlapping acquires of a session no wake-up is lost and no instance is displaced. */
  lemma {:induction false} DisjointAcquires(r: seq<State>, acts: seq<Action>, i: nat)
    requires Run(r, acts) && i < |r|
    requires forall j :: 0 <= j < i ==> NoOverlap(r[j])
    ensures Exclusive(r[i]) && NoLostWakeup(r[i])
    ensures forall j :: 0 <= j < i ==> !Swallows(r[j], acts[j])
  {
    if i > 0 {
      DisjointAcquires(r, acts, i - 1);
      StepExclusive(r[i - 1], acts[i - 1]);
    }
    WakeupsNotLost(r, acts, i);
  }
}
