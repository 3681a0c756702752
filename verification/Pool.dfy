/**
 The dedicated instance pool of src/backend/pool.rs as a transition system.

 A step is the code between two lock or await boundaries of one task, so that
 the runs below are all interleavings of any number of `acquire`, `release` and
 `stop_all` calls.  What the code cannot decide itself (whether a popped instance
 is healthy, whether a spawn succeeds, whether a sleeper is woken or times out,
 which waiter a notification reaches) is the outcome of the step.
 */
module Pool {
  import opened Numbers

  type Session = nat
  type Instance = nat

  /** What a task's registered `Notified` future has received: nothing; a `notify_one`
      (handed to another waiter if the future is dropped unused); or a `notify_waiters`
      or a stored permit (gone when the future is dropped). */
  datatype Note = Unnotified | Passable | Spent

  datatype Pc =
    // acquire
    | ACheck | AIdle | APermit | ASleep | AEvict | AEvictNotify | AAgain
    | ASpawn(inst: Instance) | AInsert(inst: Instance) | AFail | AFailNotify | AReturn
    // release
    | RRemove | RStop | RNotify | RCount | RPermit
    | RSpawn(inst: Instance) | RPush(inst: Instance) | RFail | RNotifyLast
    // stop_all
    | SIdle | SAssigned(stopped: nat) | SRead(stopped: nat) | SAdd(credit: nat) | SNotify(credit: nat)
    | Done

  datatype Task = Task(session: Session, pc: Pc, note: Note, woken: bool)

  /** Where an instance is; `Retired` covers stopped, dropped and failed ones. */
  datatype Place = Spawning | Idle | Claimed(session: Session) | Assigned(session: Session) | Retired

  /** What the locks and the semaphore protect. */
  datatype Shared = Shared(
    permits: nat, idle: seq<Instance>, assignedTo: map<Session, Instance>,
    places: seq<Place>,           // indexed by instance id, for the isolation results
    displaced: nat                // instances overwritten by a second insert for one session
  )

  /** `stored` is the permit a `notify_one` without waiters leaves behind. */
  datatype State = State(max: nat, minIdle: nat, shared: Shared, stored: bool, tasks: seq<Task>)

  predicate Registered(pc: Pc) {
    pc.ACheck? || pc.AIdle? || pc.APermit? || pc.ASleep? || pc.AEvict? || pc.AEvictNotify? || pc.AAgain?
    || pc.ASpawn? || pc.AInsert? || pc.AFail? || pc.AFailNotify? || pc.AReturn?
  }

  predicate Waiting(t: Task) { Registered(t.pc) && t.note == Unnotified }

  predicate SomeWaiting(tasks: seq<Task>) { exists i :: 0 <= i < |tasks| && Waiting(tasks[i]) }

  /** `ok` settles the nondeterminism of a step, `who` the waiter a notification reaches. */
  datatype Action =
    | StartAcquire(session: Session)
    | StartRelease(session: Session)
    | StartStopAll
    | Advance(t: nat, ok: bool, who: nat)

  predicate Enabled(s: State, a: Action) {
    a.Advance? ==>
      && a.t < |s.tasks|
      && !s.tasks[a.t].pc.Done?
      && (s.tasks[a.t].pc.ASleep? ==> (a.ok <==> s.tasks[a.t].note != Unnotified))
      && (SomeWaiting(s.tasks) ==> a.who < |s.tasks| && Waiting(s.tasks[a.who]))
  }

  // ---- Notify ----

  /** What a step does with the `Notify`: nothing, `notify_one`, `notify_waiters`, dropping the task's future,
      dropping it and registering a new one at the top of the acquire loop, or registering a new one
      after the old one completed. */
  datatype Signal = Silent | One | All | Drop | Again | Wake

  function Notified(t: Task): Task { if Waiting(t) then t.(note := Spent) else t }

  /** `notify_one`: reach one waiter, or store a permit. */
  function NotifyOne(s: State, who: nat): State {
    if who < |s.tasks| && Waiting(s.tasks[who]) then s.(tasks := s.tasks[who := s.tasks[who].(note := Passable)])
    else s.(stored := true)
  }

  /** `notify_waiters`: reach every registered waiter. */
  function NotifyAll(s: State): State {
    s.(tasks := seq(|s.tasks|, i requires 0 <= i < |s.tasks| => Notified(s.tasks[i])))
  }

  /** Dropping a `Notified`: an unused `notify_one` moves on. */
  function DropNote(s: State, t: nat, who: nat): State
    requires t < |s.tasks|
  {
    var rest := s.(tasks := s.tasks[t := s.tasks[t].(note := Spent)]);
    if s.tasks[t].note == Passable then NotifyOne(rest, who) else rest
  }

  /** `notified()` and `enable()`: take the stored permit if there is one. */
  function Register(s: State, t: nat, woken: bool): State
    requires t < |s.tasks|
  {
    s.(stored := false,
       tasks := s.tasks[t := s.tasks[t].(note := if s.stored then Spent else Unnotified, woken := woken)])
  }

  function Emit(s: State, t: nat, signal: Signal, who: nat): (r: State)
    requires t < |s.tasks|
    ensures |r.tasks| == |s.tasks| && r.(tasks := s.tasks, stored := s.stored) == s
  {
    match signal
    case Silent => s
    case One => NotifyOne(s, who)
    case All => NotifyAll(s)
    case Drop => DropNote(s, t, who)
    case Again => Register(DropNote(s, t, who), t, false)
    case Wake => Register(s, t, true)
  }

  // ---- Steps ----

  /** One step of a task: the shared state it leaves, where the task goes, and what it signals. */
  datatype Plan = Plan(shared: Shared, pc: Pc, signal: Signal)

  function Move(places: seq<Place>, inst: Instance, p: Place): seq<Place> {
    if inst < |places| then places[inst := p] else places
  }

  function RetireAll(places: seq<Place>, gone: set<Instance>): seq<Place> {
    seq(|places|, i requires 0 <= i < |places| => if i in gone then Retired else places[i])
  }

  function AcquirePlan(h: Shared, task: Task, ok: bool): Plan
    requires Registered(task.pc)
  {
    match task.pc
    case ACheck => Plan(h, if task.session in h.assignedTo then AReturn else AIdle, Silent)
    case AIdle =>
      if h.idle == [] then Plan(h, APermit, Silent)
      else if ok then
        Plan(h.(idle := h.idle[1..], places := Move(h.places, h.idle[0], Claimed(task.session))),
             AInsert(h.idle[0]), Silent)
      else Plan(h.(idle := h.idle[1..], places := Move(h.places, h.idle[0], Retired)), AEvict, Silent)
    case AEvict => Plan(h.(permits := h.permits + 1), AEvictNotify, Silent)
    case AEvictNotify => Plan(h, AAgain, All)
    case AAgain => Plan(h, ACheck, Again)
    case APermit =>
      if h.permits > 0 then
        Plan(h.(permits := h.permits - 1, places := h.places + [Spawning]), ASpawn(|h.places|), Silent)
      else Plan(h, ASleep, Silent)
    case ASpawn(inst) =>
      if ok then Plan(h.(places := Move(h.places, inst, Claimed(task.session))), AInsert(inst), Silent)
      else Plan(h.(places := Move(h.places, inst, Retired)), AFail, Silent)
    case AInsert(inst) =>
      var places :=
        if task.session in h.assignedTo then Move(h.places, h.assignedTo[task.session], Retired) else h.places;
      Plan(h.(assignedTo := h.assignedTo[task.session := inst],
              places := Move(places, inst, Assigned(task.session)),
              displaced := h.displaced + if task.session in h.assignedTo then 1 else 0), AReturn, Silent)
    case AFail => Plan(h.(permits := h.permits + 1), AFailNotify, Silent)
    case AFailNotify => Plan(h, AReturn, All)
    case ASleep => if ok then Plan(h, ACheck, Wake) else Plan(h, AReturn, Silent)
    case AReturn => Plan(h, Done, Drop)
  }

  predicate Releasing(pc: Pc) {
    pc.RRemove? || pc.RStop? || pc.RNotify? || pc.RCount? || pc.RPermit? || pc.RSpawn? || pc.RPush? || pc.RFail?
    || pc.RNotifyLast?
  }

  function ReleasePlan(h: Shared, task: Task, ok: bool, minIdle: nat): Plan
    requires Releasing(task.pc)
  {
    match task.pc
    case RRemove =>
      if task.session in h.assignedTo then
        Plan(h.(assignedTo := h.assignedTo - {task.session},
                places := Move(h.places, h.assignedTo[task.session], Retired)), RStop, Silent)
      else Plan(h, Done, Silent)
    case RStop => Plan(h.(permits := h.permits + 1), RNotify, Silent)
    case RNotify => Plan(h, RCount, One)
    case RCount => Plan(h, if |h.idle| < minIdle then RPermit else Done, Silent)
    case RPermit =>
      if h.permits > 0 then
        Plan(h.(permits := h.permits - 1, places := h.places + [Spawning]), RSpawn(|h.places|), Silent)
      else Plan(h, Done, Silent)
    case RSpawn(inst) =>
      if ok then Plan(h, RPush(inst), Silent)
      else Plan(h.(places := Move(h.places, inst, Retired)), RFail, Silent)
    case RPush(inst) => Plan(h.(idle := h.idle + [inst], places := Move(h.places, inst, Idle)), RNotifyLast, Silent)
    case RFail => Plan(h.(permits := h.permits + 1), RNotifyLast, Silent)
    case RNotifyLast => Plan(h, Done, One)
  }

  function StopPlan(h: Shared, pc: Pc, max: nat): Plan {
    match pc
    case SIdle =>
      Plan(h.(idle := [], places := RetireAll(h.places, set x | x in h.idle)), SAssigned(|h.idle|), Silent)
    case SAssigned(n) =>
      Plan(h.(assignedTo := map[], places := RetireAll(h.places, h.assignedTo.Values)),
           SRead(n + |h.assignedTo|), Silent)
    case SRead(n) =>
      var credit := Least(n, if h.permits <= max then max - h.permits else 0);
      Plan(h, if credit > 0 then SAdd(credit) else Done, Silent)
    case SAdd(n) => Plan(h.(permits := h.permits + n), SNotify(n), Silent)
    case SNotify(n) => Plan(h, Done, All)
    case _ => Plan(h, Done, Silent)
  }

  function StepPlan(s: State, t: nat, ok: bool): Plan
    requires t < |s.tasks|
  {
    var task := s.tasks[t];
    if Registered(task.pc) then AcquirePlan(s.shared, task, ok)
    else if Releasing(task.pc) then ReleasePlan(s.shared, task, ok, s.minIdle)
    else StopPlan(s.shared, task.pc, s.max)
  }

  function Apply(s: State, t: nat, plan: Plan, who: nat): State
    requires t < |s.tasks|
  {
    var n := Emit(s, t, plan.signal, who);
    n.(shared := plan.shared, tasks := n.tasks[t := n.tasks[t].(pc := plan.pc)])
  }

  function Start(s: State, k: Session, pc: Pc): State {
    s.(tasks := s.tasks + [Task(k, pc, Spent, false)])
  }

  function Next(s: State, a: Action): State
    requires Enabled(s, a)
  {
    match a
    case StartAcquire(k) => Register(Start(s, k, ACheck), |s.tasks|, false)
    case StartRelease(k) => Start(s, k, RRemove)
    case StartStopAll => Start(s, 0, SIdle)
    case Advance(t, ok, who) => Apply(s, t, StepPlan(s, t, ok), who)
  }

  /** A pool as `new` leaves it: some instances pre-warmed, no task yet. */
  ghost predicate Init(s: State) {
    var h := s.shared;
    && h.permits + |h.idle| == s.max && |h.idle| <= s.minIdle
    && h.assignedTo == map[] && s.tasks == [] && !s.stored && h.displaced == 0
    && (forall i :: 0 <= i < |h.idle| ==> h.idle[i] < |h.places| && h.places[h.idle[i]] == Idle)
    && (forall i, j :: 0 <= i < j < |h.idle| ==> h.idle[i] != h.idle[j])
    && (forall x :: 0 <= x < |h.places| ==> h.places[x] == Retired || (h.places[x] == Idle && x in h.idle))
  }

  /** A run: every state follows from the one before by one enabled action. */
  ghost predicate Run(r: seq<State>, acts: seq<Action>) {
    && |r| == |acts| + 1
    && Init(r[0])
    && forall i :: 0 <= i < |acts| ==> Enabled(r[i], acts[i]) && r[i + 1] == Next(r[i], acts[i])
  }
}
