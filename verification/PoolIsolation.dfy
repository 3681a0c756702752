/** An instance is in one place at a time, moves forward only, and never serves two sessions. */
module PoolIsolation {
  import opened Pool
  import opened PoolWakeups

  function Carried(pc: Pc): set<Instance> {
    match pc
    case ASpawn(x) => {x}
    case AInsert(x) => {x}
    case RSpawn(x) => {x}
    case RPush(x) => {x}
    case _ => {}
  }

  /** The only moves an instance makes. */
  predicate Later(p: Place, q: Place) {
    || p == q || q.Retired? || p.Spawning?
    || (p.Idle? && (q.Claimed? || q.Assigned?))
    || (p.Claimed? && q == Assigned(p.session))
  }

  /** The idle queue and the assignments hold exactly the instances that are there. */
  ghost predicate SharedLocated(h: Shared) {
    && (forall i :: 0 <= i < |h.idle| ==> h.idle[i] < |h.places| && h.places[h.idle[i]] == Idle)
    && (forall i, j :: 0 <= i < j < |h.idle| ==> h.idle[i] != h.idle[j])
    && (forall k :: k in h.assignedTo ==> h.assignedTo[k] < |h.places| && h.places[h.assignedTo[k]] == Assigned(k))
    && (forall x :: 0 <= x < |h.places| && h.places[x] == Idle ==> x in h.idle)
    && (forall x :: 0 <= x < |h.places| && h.places[x].Assigned?
          ==> h.places[x].session in h.assignedTo && h.assignedTo[h.places[x].session] == x)
  }

  /** What a task carries is being spawned, or claimed for the task's session. */
  ghost predicate TaskLocated(places: seq<Place>, t: Task) {
    forall x :: x in Carried(t.pc)
      ==> x < |places| && places[x] == if t.pc.AInsert? then Claimed(t.session) else Spawning
  }

  ghost predicate Located(s: State) {
    && SharedLocated(s.shared)
    && (forall t :: 0 <= t < |s.tasks| ==> TaskLocated(s.shared.places, s.tasks[t]))
    && (forall t, u :: 0 <= t < u < |s.tasks| ==> Carried(s.tasks[t].pc) !! Carried(s.tasks[u].pc))
  }

  ghost predicate Forward(ps: seq<Place>, qs: seq<Place>) {
    |ps| <= |qs| && forall x :: 0 <= x < |ps| ==> Later(ps[x], qs[x])
  }

  /** What a step may do to the places: nothing to instances other tasks carry. */
  ghost predicate Respects(h: Shared, carried: set<Instance>, g: Shared, carries: set<Instance>) {
    && SharedLocated(g)
    && Forward(h.places, g.places)
    && (forall x :: 0 <= x < |h.places| && (h.places[x].Spawning? || h.places[x].Claimed?) && x !in carried
          ==> g.places[x] == h.places[x] && x !in carries)
  }

  lemma KeepRespects(h: Shared, g: Shared, carried: set<Instance>)
    requires SharedLocated(h) && g.idle == h.idle && g.assignedTo == h.assignedTo && g.places == h.places
    ensures Respects(h, carried, g, {}) && Respects(h, carried, g, carried)
  {
  }

  lemma PopRespects(h: Shared, p: Place)
    requires SharedLocated(h) && h.idle != [] && (p.Claimed? || p.Retired?)
    ensures var x := h.idle[0]; var g := h.(idle := h.idle[1..], places := Move(h.places, x, p));
      Respects(h, {}, g, {x}) && g.places[x] == p && x < |h.places|
  {
    forall y | 0 <= y < |h.places| && h.places[y] == Idle && y != h.idle[0] ensures y in h.idle[1..] {}
  }

  lemma SpawnRespects(h: Shared)
    requires SharedLocated(h) && h.permits > 0
    ensures Respects(h, {}, h.(permits := h.permits - 1, places := h.places + [Spawning]), {|h.places|})
  {
  }

  /** A carried instance is claimed, retired, or put into the idle queue. */
  lemma CarriedRespects(h: Shared, x: Instance, p: Place)
    requires SharedLocated(h) && x < |h.places| && h.places[x].Spawning? && (p.Claimed? || p.Retired? || p.Idle?)
    ensures var g := h.(idle := if p.Idle? then h.idle + [x] else h.idle, places := Move(h.places, x, p));
      Respects(h, {x}, g, {x}) && g.places[x] == p
  {
  }

  lemma RemoveRespects(h: Shared, k: Session)
    requires SharedLocated(h) && k in h.assignedTo
    ensures var places := Move(h.places, h.assignedTo[k], Retired);
      Respects(h, {}, h.(assignedTo := h.assignedTo - {k}, places := places), {})
  {
  }

  lemma AssignLocated(h: Shared, x: Instance, k: Session)
    requires SharedLocated(h) && k !in h.assignedTo && x < |h.places| && h.places[x] == Claimed(k)
    ensures SharedLocated(h.(assignedTo := h.assignedTo[k := x], places := Move(h.places, x, Assigned(k))))
  {
  }

  /** Assigning again is taking the old assignment back and then assigning. */
  lemma InsertInTwo(h: Shared, x: Instance, k: Session)
    requires SharedLocated(h) && k in h.assignedTo && x < |h.places| && h.places[x] == Claimed(k)
    ensures var mid := h.(assignedTo := h.assignedTo - {k}, places := Move(h.places, h.assignedTo[k], Retired));
      var g := AcquirePlan(h, Task(k, AInsert(x), Spent, false), true).shared;
      && g.assignedTo == mid.assignedTo[k := x] && g.places == Move(mid.places, x, Assigned(k))
      && g.idle == mid.idle && |mid.places| == |h.places| && mid.places[x] == Claimed(k)
  {
    assert h.places[h.assignedTo[k]] == Assigned(k);
  }

  lemma SameLocated(h: Shared, g: Shared)
    requires SharedLocated(h) && g.idle == h.idle && g.assignedTo == h.assignedTo && g.places == h.places
    ensures SharedLocated(g)
  {
  }

  lemma InsertLocated(h: Shared, x: Instance, k: Session)
    requires SharedLocated(h) && x < |h.places| && h.places[x] == Claimed(k)
    ensures SharedLocated(AcquirePlan(h, Task(k, AInsert(x), Spent, false), true).shared)
  {
    var g, mid := AcquirePlan(h, Task(k, AInsert(x), Spent, false), true).shared, h;
    if k in h.assignedTo {
      mid := h.(assignedTo := h.assignedTo - {k}, places := Move(h.places, h.assignedTo[k], Retired));
      RemoveRespects(h, k);
      InsertInTwo(h, x, k);
    }
    AssignLocated(mid, x, k);
    SameLocated(mid.(assignedTo := mid.assignedTo[k := x], places := Move(mid.places, x, Assigned(k))), g);
  }

  lemma InsertPlaces(h: Shared, x: Instance, k: Session, g: Shared)
    requires SharedLocated(h) && x < |h.places| && h.places[x] == Claimed(k)
    requires g == AcquirePlan(h, Task(k, AInsert(x), Spent, false), true).shared
    ensures |g.places| == |h.places| && g.places[x] == Assigned(k)
    ensures k in h.assignedTo ==> h.assignedTo[k] != x && g.places[h.assignedTo[k]] == Retired
    ensures forall y :: 0 <= y < |h.places| && y != x && (k in h.assignedTo ==> y != h.assignedTo[k])
              ==> g.places[y] == h.places[y]
  {
  }

  /** Assigning retires the instance the session had, if any. */
  lemma InsertRespects(h: Shared, x: Instance, k: Session)
    requires SharedLocated(h) && x < |h.places| && h.places[x] == Claimed(k)
    ensures Respects(h, {x}, AcquirePlan(h, Task(k, AInsert(x), Spent, false), true).shared, {})
  {
    InsertLocated(h, x, k);
    InsertPlaces(h, x, k, AcquirePlan(h, Task(k, AInsert(x), Spent, false), true).shared);
  }

  lemma DrainRespects(h: Shared)
    requires SharedLocated(h)
    ensures Respects(h, {}, h.(idle := [], places := RetireAll(h.places, set x | x in h.idle)), {})
    ensures Respects(h, {}, h.(assignedTo := map[], places := RetireAll(h.places, h.assignedTo.Values)), {})
  {
    assert forall k :: k in h.assignedTo ==> h.assignedTo[k] in h.assignedTo.Values;
  }

  /** The outcome of a plan: only what the task carries and what it took up changed place. */
  ghost predicate PlanOk(h: Shared, task: Task, p: Plan) {
    Respects(h, Carried(task.pc), p.shared, Carried(p.pc)) && TaskLocated(p.shared.places, task.(pc := p.pc))
  }

  /** Steps that move neither an instance nor the task's hold on one. */
  lemma QuietOk(h: Shared, task: Task, p: Plan)
    requires SharedLocated(h) && TaskLocated(h.places, task) && Carried(p.pc) == Carried(task.pc)
    requires task.pc.AInsert? <==> p.pc.AInsert?
    requires p.shared.idle == h.idle && p.shared.assignedTo == h.assignedTo && p.shared.places == h.places
    ensures PlanOk(h, task, p)
  {
    KeepRespects(h, p.shared, Carried(p.pc));
  }

  lemma TakeOk(h: Shared, task: Task, ok: bool)
    requires SharedLocated(h) && ((task.pc.AIdle? && h.idle != []) || (task.pc.APermit? && h.permits > 0))
    ensures PlanOk(h, task, AcquirePlan(h, task, ok))
  {
    hide SharedLocated;
    if task.pc.AIdle? { PopRespects(h, if ok then Claimed(task.session) else Retired); } else { SpawnRespects(h); }
  }

  lemma GiveOk(h: Shared, task: Task, ok: bool)
    requires SharedLocated(h) && TaskLocated(h.places, task) && (task.pc.ASpawn? || task.pc.AInsert?)
    ensures PlanOk(h, task, AcquirePlan(h, task, ok))
  {
    hide SharedLocated;
    assert task.pc.inst in Carried(task.pc);
    if task.pc.ASpawn? {
      CarriedRespects(h, task.pc.inst, if ok then Claimed(task.session) else Retired);
    } else {
      InsertRespects(h, task.pc.inst, task.session);
    }
  }

  lemma AcquireOk(h: Shared, task: Task, ok: bool)
    requires SharedLocated(h) && TaskLocated(h.places, task) && Registered(task.pc)
    ensures PlanOk(h, task, AcquirePlan(h, task, ok))
  {
    hide SharedLocated, TaskLocated, PlanOk;
    if (task.pc.AIdle? && h.idle != []) || (task.pc.APermit? && h.permits > 0) { TakeOk(h, task, ok); }
    else if task.pc.ASpawn? || task.pc.AInsert? { GiveOk(h, task, ok); }
    else { QuietOk(h, task, AcquirePlan(h, task, ok)); }
  }

  lemma ReplaceOk(h: Shared, task: Task, ok: bool, minIdle: nat)
    requires SharedLocated(h) && TaskLocated(h.places, task) && ((task.pc.RSpawn? && !ok) || task.pc.RPush?)
    ensures PlanOk(h, task, ReleasePlan(h, task, ok, minIdle))
  {
    hide SharedLocated;
    assert task.pc.inst in Carried(task.pc);
    CarriedRespects(h, task.pc.inst, if task.pc.RPush? then Idle else Retired);
  }

  lemma RemoveOk(h: Shared, task: Task, ok: bool, minIdle: nat)
    requires SharedLocated(h) && task.pc.RRemove? && task.session in h.assignedTo
    ensures PlanOk(h, task, ReleasePlan(h, task, ok, minIdle))
  {
    RemoveRespects(h, task.session);
  }

  lemma RespawnOk(h: Shared, task: Task, ok: bool, minIdle: nat)
    requires SharedLocated(h) && task.pc.RPermit? && h.permits > 0
    ensures PlanOk(h, task, ReleasePlan(h, task, ok, minIdle))
  {
    SpawnRespects(h);
  }

  lemma ReleaseOk(h: Shared, task: Task, ok: bool, minIdle: nat)
    requires SharedLocated(h) && TaskLocated(h.places, task) && Releasing(task.pc)
    ensures PlanOk(h, task, ReleasePlan(h, task, ok, minIdle))
  {
    hide SharedLocated, TaskLocated, PlanOk;
    if task.pc.RRemove? && task.session in h.assignedTo { RemoveOk(h, task, ok, minIdle); }
    else if task.pc.RPermit? && h.permits > 0 { RespawnOk(h, task, ok, minIdle); }
    else if (task.pc.RSpawn? && !ok) || task.pc.RPush? { ReplaceOk(h, task, ok, minIdle); }
    else { QuietOk(h, task, ReleasePlan(h, task, ok, minIdle)); }
  }

  lemma PlanRespects(s: State, t: nat, ok: bool)
    requires Located(s) && t < |s.tasks|
    ensures PlanOk(s.shared, s.tasks[t], StepPlan(s, t, ok))
  {
    hide SharedLocated;
    var task := s.tasks[t];
    if Registered(task.pc) { AcquireOk(s.shared, task, ok); }
    else if Releasing(task.pc) { ReleaseOk(s.shared, task, ok, s.minIdle); }
    else if task.pc.SIdle? || task.pc.SAssigned? { DrainRespects(s.shared); }
    else { QuietOk(s.shared, task, StepPlan(s, t, ok)); }
  }

  /** The other tasks keep their places in a step. */
  lemma OthersLocated(s: State, t: nat, p: Plan, us: seq<Task>)
    requires Located(s) && t < |s.tasks| == |us| && PlanOk(s.shared, s.tasks[t], p)
    requires forall u :: 0 <= u < |us| && u != t ==> us[u].session == s.tasks[u].session && us[u].pc == s.tasks[u].pc
    ensures forall u :: 0 <= u < |us| && u != t ==>
              TaskLocated(p.shared.places, us[u]) && Carried(us[u].pc) !! Carried(p.pc)
  {
    forall u | 0 <= u < |us| && u != t
      ensures TaskLocated(p.shared.places, us[u]) && Carried(us[u].pc) !! Carried(p.pc)
    {
      assert TaskLocated(s.shared.places, s.tasks[u]);
    }
  }

  lemma StepLocated(s: State, a: Action)
    requires Located(s) && Enabled(s, a)
    ensures Located(Next(s, a)) && Forward(s.shared.places, Next(s, a).shared.places)
  {
    if a.Advance? {
      var p, us := StepPlan(s, a.t, a.ok), Next(s, a).tasks;
      PlanRespects(s, a.t, a.ok);
      forall t | 0 <= t < |s.tasks|
        ensures us[t].session == s.tasks[t].session && us[t].pc == if t == a.t then p.pc else s.tasks[t].pc
      {
        ApplyKeeps(s, a.t, p, a.who, t);
      }
      OthersLocated(s, a.t, p, us);
    }
  }

  lemma {:induction false} RunLocated(r: seq<State>, acts: seq<Action>, j: nat)
    requires Run(r, acts) && j < |r|
    ensures Located(r[j])
  {
    if j > 0 {
      RunLocated(r, acts, j - 1);
      StepLocated(r[j - 1], acts[j - 1]);
    }
  }

  lemma ForwardSame(ps: seq<Place>)
    ensures Forward(ps, ps)
  {
  }

  lemma ForwardTransitive(ps: seq<Place>, qs: seq<Place>, rs: seq<Place>)
    requires Forward(ps, qs) && Forward(qs, rs)
    ensures Forward(ps, rs)
  {
  }

  lemma StepForward(r: seq<State>, acts: seq<Action>, j: nat)
    requires Run(r, acts) && j < |acts|
    ensures Forward(r[j].shared.places, r[j + 1].shared.places)
  {
    hide Forward, Enabled, Located, Init;
    RunLocated(r, acts, j);
    StepLocated(r[j], acts[j]);
  }

  lemma {:induction false} RunForward(r: seq<State>, acts: seq<Action>, i: nat, j: nat)
    requires Run(r, acts) && i <= j < |r|
    ensures Forward(r[i].shared.places, r[j].shared.places)
  {
    hide Forward, Next, Enabled, Init;
    if i == j {
      ForwardSame(r[i].shared.places);
    } else {
      RunForward(r, acts, i, j - 1);
      StepForward(r, acts, j - 1);
      ForwardTransitive(r[i].shared.places, r[j - 1].shared.places, r[j].shared.places);
    }
  }

  /** In no interleaving is an instance assigned to two sessions, nor idle again after it served one. */
  lemma SessionsIsolated(r: seq<State>, acts: seq<Action>, i: nat, j: nat, k: Session, x: Instance)
    requires Run(r, acts) && i <= j < |r|
    requires k in r[i].shared.assignedTo && r[i].shared.assignedTo[k] == x
    ensures x !in r[j].shared.idle
    ensures forall k' :: k' in r[j].shared.assignedTo && r[j].shared.assignedTo[k'] == x ==> k' == k
  {
    RunLocated(r, acts, i);
    RunLocated(r, acts, j);
    RunForward(r, acts, i, j);
  }
}
