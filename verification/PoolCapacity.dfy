/** Capacity is conserved in every interleaving. */
module PoolCapacity {
  import opened Pool
  import opened Sums

  /** The capacity a task holds: an instance it is spawning, moving, stopping or evicting, or has stopped but not
      credited. */
  function HeldAt(pc: Pc): nat {
    match pc
    case ASpawn(_) | AInsert(_) | AEvict | AFail => 1
    case RStop | RSpawn(_) | RPush(_) | RFail => 1
    case SAssigned(n) => n
    case SRead(n) => n
    case SAdd(n) => n
    case _ => 0
  }

  function Held(t: Task): nat { HeldAt(t.pc) }

  function InPool(h: Shared): nat { h.permits + |h.idle| + |h.assignedTo| + h.displaced }

  /** Permits, idle, assigned, displaced and held by a task make up the maximum. */
  ghost predicate Conserved(s: State) {
    InPool(s.shared) + Sum(s.tasks, Held) == s.max
  }

  lemma MapSize(m: map<Session, Instance>, k: Session, x: Instance)
    ensures |m[k := x]| == |m| + if k in m then 0 else 1
    ensures k in m ==> |m - {k}| == |m| - 1
  {
    assert m[k := x].Keys == m.Keys + {k};
    assert (m - {k}).Keys == m.Keys - {k};
    assert |m| == |m.Keys| && |m[k := x]| == |m[k := x].Keys| && |m - {k}| == |(m - {k}).Keys|;
  }

  /** What a step takes out of the pool its task holds afterwards, and back. */
  lemma AcquirePlanConserves(h: Shared, task: Task, ok: bool)
    requires Registered(task.pc)
    ensures var p := AcquirePlan(h, task, ok); InPool(p.shared) + HeldAt(p.pc) == InPool(h) + Held(task)
  {
    if task.pc.AInsert? { MapSize(h.assignedTo, task.session, task.pc.inst); }
  }

  lemma ReleasePlanConserves(h: Shared, task: Task, ok: bool, minIdle: nat)
    requires Releasing(task.pc)
    ensures var p := ReleasePlan(h, task, ok, minIdle); InPool(p.shared) + HeldAt(p.pc) == InPool(h) + Held(task)
  {
    if task.pc.RRemove? && task.session in h.assignedTo { MapSize(h.assignedTo, task.session, 0); }
  }

  /** `stop_all` returns exactly what it stopped: its clamp cuts nothing off. */
  lemma PlanConserves(s: State, t: nat, ok: bool)
    requires t < |s.tasks| && InPool(s.shared) + Held(s.tasks[t]) <= s.max
    ensures var p := StepPlan(s, t, ok); InPool(p.shared) + HeldAt(p.pc) == InPool(s.shared) + Held(s.tasks[t])
    ensures var pc := s.tasks[t].pc; pc.SRead? && pc.stopped > 0 ==> StepPlan(s, t, ok).pc == SAdd(pc.stopped)
  {
    if Registered(s.tasks[t].pc) { AcquirePlanConserves(s.shared, s.tasks[t], ok); }
    else if Releasing(s.tasks[t].pc) { ReleasePlanConserves(s.shared, s.tasks[t], ok, s.minIdle); }
  }

  /** Signals change no program counter. */
  lemma EmitKeepsPc(s: State, t: nat, signal: Signal, who: nat, i: nat)
    requires t < |s.tasks| && i < |s.tasks|
    ensures Emit(s, t, signal, who).tasks[i].pc == s.tasks[i].pc
    ensures Emit(s, t, signal, who).tasks[i].session == s.tasks[i].session
  {
  }

  lemma ApplyHeld(s: State, t: nat, plan: Plan, who: nat)
    requires t < |s.tasks|
    ensures Sum(Apply(s, t, plan, who).tasks, Held) + Held(s.tasks[t]) == Sum(s.tasks, Held) + HeldAt(plan.pc)
  {
    hide Sum;
    var n := Emit(s, t, plan.signal, who);
    forall i | 0 <= i < |s.tasks| ensures n.tasks[i].pc == s.tasks[i].pc { EmitKeepsPc(s, t, plan.signal, who, i); }
    SumSame(n.tasks, s.tasks, Held);
    SumUpdate(n.tasks, Held, t, n.tasks[t].(pc := plan.pc));
  }

  lemma AdvanceConserves(s: State, t: nat, ok: bool, who: nat)
    requires Conserved(s) && t < |s.tasks|
    ensures Conserved(Apply(s, t, StepPlan(s, t, ok), who))
  {
    hide Sum;
    SumUpdate(s.tasks, Held, t, s.tasks[t]);
    PlanConserves(s, t, ok);
    ApplyHeld(s, t, StepPlan(s, t, ok), who);
  }

  lemma StartConserves(s: State, a: Action)
    requires Conserved(s) && Enabled(s, a) && !a.Advance?
    ensures Conserved(Next(s, a))
  {
    hide Sum;
    var u := Next(s, a).tasks[|s.tasks|];
    assert Next(s, a).tasks == s.tasks + [u];
    SumAppend(s.tasks, Held, u);
  }

  lemma StepConserves(s: State, a: Action)
    requires Conserved(s) && Enabled(s, a)
    ensures Conserved(Next(s, a)) && Next(s, a).max == s.max
  {
    if a.Advance? { AdvanceConserves(s, a.t, a.ok, a.who); } else { StartConserves(s, a); }
  }

  /** Every state of every run conserves capacity. */
  lemma {:induction false} CapacityConserved(r: seq<State>, acts: seq<Action>, i: nat)
    requires Run(r, acts) && i < |r|
    ensures Conserved(r[i]) && r[i].max == r[0].max
    ensures r[i].shared.permits <= r[0].max
  {
    if i > 0 {
      CapacityConserved(r, acts, i - 1);
      StepConserves(r[i - 1], acts[i - 1]);
    }
  }
}
