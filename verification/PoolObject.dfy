/** The pool as the object the source keeps: fields changed in place, one method for each source function's
    critical sections, each proved to be a step of the transition system. */
module PoolObject {
  import opened Numbers
  import opened Pool

  class InstancePool {
    const max: nat
    const minIdle: nat
    var permits: nat
    var idle: seq<Instance>
    var assignedTo: map<Session, Instance>
    var stored: bool
    var tasks: seq<Task>
    var places: seq<Place>
    var displaced: nat

    function View(): State
      reads this
    {
      State(max, minIdle, Shared(permits, idle, assignedTo, places, displaced), stored, tasks)
    }

    /** `new`: pre-warm up to `minIdle` instances; `spawned[i]` says whether the i-th spawn succeeds. */
    constructor (max: nat, minIdle: nat, spawned: seq<bool>)
      requires |spawned| == minIdle
      ensures Init(View()) && this.max == max && this.minIdle == minIdle
      ensures (forall i :: 0 <= i < minIdle ==> spawned[i]) ==> |idle| == Least(minIdle, max)
    {
      this.max, this.minIdle := max, minIdle;
      permits, idle, assignedTo, stored, tasks, places, displaced := max, [], map[], false, [], [], 0;
      new;
      var i := 0;
      while i < minIdle
        invariant 0 <= i <= minIdle && Init(View())
        invariant |idle| <= i && ((forall j :: 0 <= j < i ==> spawned[j]) ==> |idle| == i)
      {
        if permits == 0 { break; }
        permits := permits - 1;
        var instance := |places|;
        if spawned[i] {
          places := places + [Idle];
          idle := idle + [instance];
        } else {
          places := places + [Retired];
          permits := permits + 1;
        }
        i := i + 1;
      }
    }

    method NotifyOneWaiter(who: nat)
      modifies this`tasks, this`stored
      ensures View() == NotifyOne(old(View()), who)
    {
      if who < |tasks| && Waiting(tasks[who]) {
        tasks := tasks[who := tasks[who].(note := Passable)];
      } else {
        stored := true;
      }
    }

    method NotifyWaiters()
      modifies this`tasks
      ensures View() == NotifyAll(old(View()))
    {
      var i := 0;
      while i < |tasks|
        invariant 0 <= i <= |tasks| == |old(tasks)|
        invariant forall j :: 0 <= j < i ==> tasks[j] == Notified(old(tasks)[j])
        invariant forall j :: i <= j < |tasks| ==> tasks[j] == old(tasks)[j]
      {
        if Waiting(tasks[i]) { tasks := tasks[i := tasks[i].(note := Spent)]; }
        i := i + 1;
      }
    }

    method DropNotified(t: nat, who: nat)
      requires t < |tasks|
      modifies this`tasks, this`stored
      ensures View() == DropNote(old(View()), t, who)
    {
      var note := tasks[t].note;
      tasks := tasks[t := tasks[t].(note := Spent)];
      if note == Passable { NotifyOneWaiter(who); }
    }

    method RegisterNotified(t: nat, woken: bool)
      requires t < |tasks|
      modifies this`tasks, this`stored
      ensures View() == Register(old(View()), t, woken)
    {
      tasks := tasks[t := tasks[t].(note := if stored then Spent else Unnotified, woken := woken)];
      stored := false;
    }

    method Proceed(t: nat, pc: Pc)
      requires t < |tasks|
      modifies this`tasks
      ensures tasks == old(tasks)[t := old(tasks)[t].(pc := pc)]
    {
      tasks := tasks[t := tasks[t].(pc := pc)];
    }

    method Put(instance: Instance, p: Place)
      modifies this`places
      ensures places == Move(old(places), instance, p)
    {
      if instance < |places| { places := places[instance := p]; }
    }

    /** `acquire`: the assignment, the idle queue, the semaphore, and the wait. */
    method AcquireLook(t: nat, ok: bool, who: nat)
      requires Enabled(View(), Advance(t, ok, who))
      requires tasks[t].pc.ACheck? || tasks[t].pc.AIdle? || tasks[t].pc.APermit? || tasks[t].pc.ASleep?
      modifies this
      ensures View() == Next(old(View()), Advance(t, ok, who))
    {
      var session := tasks[t].session;
      match tasks[t].pc
      case ACheck => Proceed(t, if session in assignedTo then AReturn else AIdle);
      case AIdle =>
        if idle == [] {
          Proceed(t, APermit);
        } else {
          var instance := idle[0];
          idle := idle[1..];
          Put(instance, if ok then Claimed(session) else Retired);
          Proceed(t, if ok then AInsert(instance) else AEvict);
        }
      case APermit =>
        if permits > 0 {
          permits := permits - 1;
          places := places + [Spawning];
          Proceed(t, ASpawn(|places| - 1));
        } else {
          Proceed(t, ASleep);
        }
      case ASleep =>
        if ok { RegisterNotified(t, true); Proceed(t, ACheck); } else { Proceed(t, AReturn); }
    }

    /** `acquire`: assigning a fresh or popped instance. */
    method AcquireAssign(t: nat, ok: bool, who: nat)
      requires Enabled(View(), Advance(t, ok, who)) && (tasks[t].pc.ASpawn? || tasks[t].pc.AInsert?)
      modifies this
      ensures View() == Next(old(View()), Advance(t, ok, who))
    {
      var session := tasks[t].session;
      match tasks[t].pc
      case ASpawn(instance) =>
        Put(instance, if ok then Claimed(session) else Retired);
        Proceed(t, if ok then AInsert(instance) else AFail);
      case AInsert(instance) =>
        if session in assignedTo {
          Put(assignedTo[session], Retired);
          displaced := displaced + 1;
        }
        assignedTo := assignedTo[session := instance];
        Put(instance, Assigned(session));
        Proceed(t, AReturn);
    }

    /** `acquire`: giving capacity back, looking again, and returning. */
    method AcquireSettle(t: nat, ok: bool, who: nat)
      requires Enabled(View(), Advance(t, ok, who))
      requires tasks[t].pc.AEvict? || tasks[t].pc.AEvictNotify? || tasks[t].pc.AAgain?
            || tasks[t].pc.AFail? || tasks[t].pc.AFailNotify? || tasks[t].pc.AReturn?
      modifies this
      ensures View() == Next(old(View()), Advance(t, ok, who))
    {
      match tasks[t].pc
      case AEvict => permits := permits + 1; Proceed(t, AEvictNotify);
      case AEvictNotify => NotifyWaiters(); Proceed(t, AAgain);
      case AAgain => DropNotified(t, who); RegisterNotified(t, false); Proceed(t, ACheck);
      case AFail => permits := permits + 1; Proceed(t, AFailNotify);
      case AFailNotify => NotifyWaiters(); Proceed(t, AReturn);
      case AReturn => DropNotified(t, who); Proceed(t, Done);
    }

    /** `release`: take the assignment away, credit the permit, notify. */
    method Release(t: nat, ok: bool, who: nat)
      requires Enabled(View(), Advance(t, ok, who))
      requires tasks[t].pc.RRemove? || tasks[t].pc.RStop? || tasks[t].pc.RNotify?
      modifies this
      ensures View() == Next(old(View()), Advance(t, ok, who))
    {
      var session := tasks[t].session;
      match tasks[t].pc
      case RRemove =>
        if session in assignedTo {
          Put(assignedTo[session], Retired);
          assignedTo := assignedTo - {session};
          Proceed(t, RStop);
        } else {
          Proceed(t, Done);
        }
      case RStop => permits := permits + 1; Proceed(t, RNotify);
      case RNotify => NotifyOneWaiter(who); Proceed(t, RCount);
    }

    /** `release`: decide whether to replenish the idle queue. */
    method Replenish(t: nat, ok: bool, who: nat)
      requires Enabled(View(), Advance(t, ok, who)) && (tasks[t].pc.RCount? || tasks[t].pc.RPermit?)
      modifies this
      ensures View() == Next(old(View()), Advance(t, ok, who))
    {
      if tasks[t].pc.RCount? {
        Proceed(t, if |idle| < minIdle then RPermit else Done);
      } else if permits > 0 {
        permits := permits - 1;
        places := places + [Spawning];
        Proceed(t, RSpawn(|places| - 1));
      } else {
        Proceed(t, Done);
      }
    }

    /** `release`: push the fresh instance or give the permit back, and notify. */
    method Replenished(t: nat, ok: bool, who: nat)
      requires Enabled(View(), Advance(t, ok, who))
      requires tasks[t].pc.RSpawn? || tasks[t].pc.RPush? || tasks[t].pc.RFail? || tasks[t].pc.RNotifyLast?
      modifies this
      ensures View() == Next(old(View()), Advance(t, ok, who))
    {
      match tasks[t].pc
      case RSpawn(instance) =>
        if !ok { Put(instance, Retired); }
        Proceed(t, if ok then RPush(instance) else RFail);
      case RPush(instance) =>
        idle := idle + [instance];
        Put(instance, Idle);
        Proceed(t, RNotifyLast);
      case RFail => permits := permits + 1; Proceed(t, RNotifyLast);
      case RNotifyLast => NotifyOneWaiter(who); Proceed(t, Done);
    }

    /** The sections of `stop_all`. */
    method StopAll(t: nat, ok: bool, who: nat)
      requires Enabled(View(), Advance(t, ok, who)) && !Registered(tasks[t].pc) && !Releasing(tasks[t].pc)
      modifies this
      ensures View() == Next(old(View()), Advance(t, ok, who))
    {
      match tasks[t].pc
      case SIdle =>
        Proceed(t, SAssigned(|idle|));
        places := RetireAll(places, set x | x in idle);
        idle := [];
      case SAssigned(n) =>
        Proceed(t, SRead(n + |assignedTo|));
        places := RetireAll(places, assignedTo.Values);
        assignedTo := map[];
      case SRead(n) =>
        var credit := Least(n, if permits <= max then max - permits else 0);
        Proceed(t, if credit > 0 then SAdd(credit) else Done);
      case SAdd(n) => permits := permits + n; Proceed(t, SNotify(n));
      case SNotify(_) => NotifyWaiters(); Proceed(t, Done);
    }
  }
}
