/** The proxy as the source keeps it: a tracker changed in place, and loops over what `select!` delivers. */
module ProxyObject {
  import opened Numbers
  import opened Options
  import opened Proxy

  class JsonRpcTracker {
    var clientPending: map<string, Id>
    var serverPending: set<string>

    function View(): Tracker
      reads this
    {
      Tracker(clientPending, serverPending)
    }

    constructor ()
      ensures View() == Tracker(map[], {})
    {
      clientPending, serverPending := map[], {};
    }

    method ObserveClientMessage(line: Line) returns (forward: bool)
      modifies this
      ensures ObserveClient(old(View()), line) == if forward then Some(View()) else None
      ensures !forward ==> View() == old(View())
    {
      var key := LineKey(line);
      if line.Opaque? || key.None? { return true; }
      if line.method_ {
        clientPending := clientPending[key.value := line.id.value];
        return true;
      }
      if line.outcome {
        if key.value !in serverPending { return false; }
        serverPending := serverPending - {key.value};
      }
      return true;
    }

    method ObserveDaemonMessage(line: Line)
      modifies this
      ensures View() == ObserveDaemon(old(View()), line)
    {
      var key := LineKey(line);
      if line.Opaque? || key.None? { return; }
      if line.method_ {
        serverPending := serverPending + {key.value};
      } else if line.outcome {
        clientPending := clientPending - {key.value};
      }
    }

    /** One error after the other, in the order the map is drained; stdout takes `room` lines before it breaks, and
        may fail to flush. */
    method FailPendingClientRequests(order: seq<string>, room: nat, flushes: bool)
      returns (errors: seq<Id>, written: bool)
      requires Drains(order, clientPending)
      modifies this
      ensures View() == Tracker(map[], {})
      ensures errors == IdsOf(old(clientPending), order[..Least(room, |order|)])
      ensures written <==> order == [] || (room >= |order| && flushes)
    {
      var pending := clientPending;
      clientPending, serverPending := map[], {};
      errors := [];
      if order == [] { return errors, true; }
      var i := 0;
      while i < |order|
        invariant i <= |order| && i <= room && errors == IdsOf(pending, order[..i])
      {
        if i == room { return errors, false; }
        assert order[i] in order;
        errors := errors + [pending[order[i]]];
        i := i + 1;
      }
      assert order[..i] == order;
      written := flushes;
    }
  }

  /** All keys, each once. */
  ghost predicate Drains(order: seq<string>, pending: map<string, Id>) {
    && (forall k :: k in order <==> k in pending)
    && forall i, j :: 0 <= i < j < |order| ==> order[i] != order[j]
  }

  function IdsOf(pending: map<string, Id>, keys: seq<string>): seq<Id>
    requires forall k :: k in keys ==> k in pending
  {
    seq(|keys|, i requires 0 <= i < |keys| => assert keys[i] in keys; pending[keys[i]])
  }

  lemma Appended(list: seq<string>, k: string)
    requires k !in list && forall i, j :: 0 <= i < j < |list| ==> list[i] != list[j]
    ensures forall x :: x in list + [k] <==> x in list || x == k
    ensures var more := list + [k]; forall i, j :: 0 <= i < j < |more| ==> more[i] != more[j]
  {
    forall i | 0 <= i < |list| ensures list[i] != k { assert list[i] in list; }
    forall x | x in list ensures x in list + [k] {
      var i :| 0 <= i < |list| && list[i] == x;
      assert (list + [k])[i] == x;
    }
    assert (list + [k])[|list|] == k;
  }

  method ListKeys(keys: set<string>) returns (list: seq<string>)
    ensures forall k :: k in list <==> k in keys
    ensures forall i, j :: 0 <= i < j < |list| ==> list[i] != list[j]
  {
    var left := keys;
    list := [];
    while left != {}
      invariant left <= keys && forall k :: k in list <==> k in keys - left
      invariant forall i, j :: 0 <= i < j < |list| ==> list[i] != list[j]
      decreases |left|
    {
      var k :| k in left;
      Appended(list, k);
      left, list := left - {k}, list + [k];
    }
  }

  /** An order that drains the first n ids, those in `through`, before the others. */
  method DrainOrder(pending: map<string, Id>, through: set<Id>) returns (order: seq<string>, n: nat)
    ensures Drains(order, pending) && n <= |order|
    ensures forall i :: 0 <= i < |order| ==> order[i] in pending && (pending[order[i]] in through <==> i < n)
  {
    var first := ListKeys(set k | k in pending && pending[k] in through);
    var rest := ListKeys(set k | k in pending && pending[k] !in through);
    order, n := first + rest, |first|;
    assert forall i :: 0 <= i < |first| ==> first[i] in first;
    assert forall i :: 0 <= i < |rest| ==> rest[i] in rest;
  }

  /** The errors are for pending ids, and for all of them if none is left out. */
  lemma AllOrSome(pending: map<string, Id>, order: seq<string>, errors: seq<Id>, n: nat)
    requires Drains(order, pending) && n <= |order| && errors == IdsOf(pending, order[..n])
    ensures forall id :: id in errors ==> id in pending.Values
    ensures n == |order| ==> forall id :: id in pending.Values ==> id in errors
    ensures order == [] <==> pending == map[]
  {
    forall id | id in errors ensures id in pending.Values {
      var i :| 0 <= i < n && errors[i] == id;
      assert order[..n][i] in pending;
    }
    if n == |order| {
      assert order[..n] == order;
      forall id | id in pending.Values ensures id in errors {
        var k :| k in pending && pending[k] == id;
        var i :| 0 <= i < |order| && order[i] == k;
        assert errors[i] == id;
      }
    }
    if order == [] { assert pending.Keys == {}; } else { assert order[0] in pending; }
  }

  lemma SameFailure(s: State, w: bool, which: set<Id>, written: bool, through: set<Id>)
    requires var ids := s.tracker.clientPending.Values;
      s.tracker.clientPending == map[] || (w == written && (!written ==> ids * through == ids * which))
    ensures FailAll(s, w, which) == FailAll(s, written, through)
  {
  }

  lemma SameThrough(pending: map<string, Id>, order: seq<string>, n: nat,
                    through: set<Id>, which: set<Id>, written: bool)
    requires Drains(order, pending) && n <= |order|
    requires forall i :: 0 <= i < |order| ==> order[i] in pending && (pending[order[i]] in through <==> i < n)
    requires var m := if written then |order| else n; forall id :: id in which <==> id in IdsOf(pending, order[..m])
    ensures !written ==> pending.Values * through == pending.Values * which
    ensures order == [] ==> pending == map[]
  {
    if order == [] { assert pending.Keys == {}; }
    if !written {
      var errors := IdsOf(pending, order[..n]);
      forall id | id in pending.Values ensures id in through <==> id in errors {
        if id in through {
          var k :| k in pending && pending[k] == id;
          var i :| 0 <= i < |order| && order[i] == k;
          assert errors[i] == id;
        }
        if id in errors {
          var i :| 0 <= i < n && errors[i] == id;
          assert pending[order[i]] == id;
        }
      }
    }
  }

  lemma AfterLegs(s: State, acts: seq<Action>, used: nat, n: nat)
    requires used + n <= |acts|
    ensures After(After(s, acts[..used]), acts[used..][..n]) == After(s, acts[..used + n])
  {
    AfterBoth(s, acts[..used], acts[used..][..n]);
    Slices(acts, used, n);
  }

  lemma Slices(acts: seq<Action>, used: nat, n: nat)
    requires used + n <= |acts|
    ensures acts[..used] + acts[used..][..n] == acts[..used + n]
  {
    var left, right := acts[..used] + acts[used..][..n], acts[..used + n];
    forall i | 0 <= i < |right| ensures left[i] == right[i] {}
  }

  class ProxyLoop {
    const pid: nat
    const tracker: JsonRpcTracker
    var phase: Phase
    var pending: Option<string>
    var ignored: set<string>
    var sequence: nat
    var queue: seq<Queued>
    var gen: nat
    var latest: nat
    var ended: bool
    var taken: nat
    ghost var log: seq<Event>

    ghost function View(): State
      reads this, tracker
    {
      State(pid, phase, tracker.View(), pending, ignored, sequence, queue, gen, latest, ended, taken, log)
    }

    constructor (pid: nat)
      ensures View() == Init(pid) && fresh(tracker)
    {
      this.pid, phase, pending, ignored, sequence := pid, Bridging, None, {}, 0;
      queue, gen, latest, ended, taken, log := [], 0, 0, false, 0, [Handshake(0)];
      tracker := new JsonRpcTracker();
    }

    /** `consume_proxy_ping_response`. */
    method ConsumeProxyPingResponse(line: Line) returns (consumed: bool)
      modifies this
      ensures consumed <==> ConsumesPing(old(View()), line)
      ensures View() == if consumed then ConsumePing(old(View()), line) else old(View())
    {
      if pending.Some? && RespondsTo(line, pending.value) {
        pending := None;
        consumed := true;
      } else if line.Object? && line.outcome && line.id.Some? && line.id.value.Str? && line.id.value.text in ignored {
        ignored := ignored - {line.id.value.text};
        consumed := true;
      } else {
        consumed := false;
      }
      if consumed {
        taken := taken + 1;
        log := log + [Consumed(line)];
      }
    }

    /** The stdin arm of the bridge. */
    method BridgeClientLine(line: Line, sent: bool, reached: bool)
      requires phase.Bridging?
      modifies this, tracker
      ensures View() == Next(old(View()), ClientLine(line, sent, reached))
    {
      hide PingId;
      var consumed := ConsumeProxyPingResponse(line);
      if !consumed { ForwardClientLine(line, sent, reached); }
    }

    /** Any other line: the outstanding ping is superseded, and the tracker decides about the line. */
    method ForwardClientLine(line: Line, sent: bool, reached: bool)
      modifies this, tracker
      ensures View() == OnClientLine(old(View()), line, sent, reached)
    {
      if pending.Some? {
        ignored := ignored + {pending.value};
        pending := None;
      }
      var index := taken;
      taken := taken + 1;
      log := log + [Read(line)];
      var forward := tracker.ObserveClientMessage(line);
      if !forward { return; }
      if sent || reached { log := log + [Deliver(gen, index, line)]; }
      if !sent { phase := Broken; }
    }

    /** The stdin arm while reconnecting. */
    method QueueClientLine(line: Line, sent: bool, reached: bool)
      requires phase.Reconnecting?
      modifies this, tracker
      ensures View() == Next(old(View()), ClientLine(line, sent, reached))
    {
      var index := taken;
      taken := taken + 1;
      log := log + [Read(line)];
      var forward := tracker.ObserveClientMessage(line);
      if forward { queue := queue + [Queued(index, line)]; }
    }

    /** The idle timer. */
    method IdleProbe(sent: bool, timedOut: bool)
      requires phase.Bridging? && pending.None?
      modifies this
      ensures View() == Next(old(View()), IdleFired(sent, timedOut))
    {
      if tracker.clientPending != map[] || tracker.serverPending != {} { return; }
      sequence := sequence + 1;
      var id := PingId(pid, sequence);
      if sent {
        pending := Some(id);
        log := log + [Pinged(id)];
      } else {
        phase := Exited(if timedOut then ClientUnresponsive else StdinClosed);
      }
    }

    /** `bridge_phase`: serve one arm after the other until one of them returns or none is left. */
    method BridgePhase(arms: seq<Action>) returns (used: nat)
      requires phase.Bridging?
      modifies this, tracker
      ensures used <= |arms| && View() == After(old(View()), arms[..used])
      ensures used == |arms| || !phase.Bridging?
      ensures arms != [] ==> used > 0
    {
      hide Next;
      used := 0;
      while used < |arms| && phase.Bridging?
        invariant used <= |arms| && View() == After(old(View()), arms[..used])
        invariant used == 0 ==> phase == old(phase)
      {
        assert arms[..used + 1][..used] == arms[..used];
        BridgeArm(arms[used]);
        used := used + 1;
      }
    }

    /** A line from the daemon: observed, then written to the client. */
    method ForwardDaemonLine(line: Line, written: bool)
      modifies this, tracker
      ensures View() == OnDaemonLine(old(View()), line, written)
    {
      tracker.ObserveDaemonMessage(line);
      if written { log := log + [FromDaemon(gen, line)]; } else { phase := Exited(StdinClosed); }
    }

    method BridgeArm(arm: Action)
      requires phase.Bridging?
      modifies this, tracker
      ensures View() == Next(old(View()), arm)
    {
      match arm
      case DaemonLine(line, written) => if !ended { ForwardDaemonLine(line, written); }
      case DaemonGone => phase, ended := Broken, true;
      case ClientLine(line, sent, reached) => BridgeClientLine(line, sent, reached);
      case ClientGone => phase := Exited(StdinClosed);
      case ParentGone => phase := Exited(ParentDied);
      case IdleFired(sent, timedOut) => if pending.None? { IdleProbe(sent, timedOut); }
      case PingExpired => if pending.Some? { phase := Exited(ClientUnresponsive); }
      case _ =>
    }

    /** `flush_queued_client_messages`: write the queue to the new generation until it is done or the write fails. */
    method FlushQueue(flushed: nat) returns (done: bool)
      modifies this`log
      ensures done <==> flushed >= |queue|
      ensures log == old(log) + Deliveries(latest, queue[..if done then |queue| else flushed])
    {
      var i := 0;
      assert log == old(log) + Deliveries(latest, queue[..0]);
      while i < |queue|
        invariant i <= |queue| && i <= flushed && log == old(log) + Deliveries(latest, queue[..i])
      {
        if i == flushed { return false; }
        ghost var e := Deliver(latest, queue[i].index, queue[i].line);
        log := log + [e];
        assert Deliveries(latest, queue[..i + 1]) == Deliveries(latest, queue[..i]) + [e];
        i := i + 1;
      }
      done := true;
    }

    /** Entering `bridge_phase` anew. */
    method EnterBridge()
      modifies this
      ensures View() == Bridge(old(View()))
    {
      phase, pending, ignored, sequence := Bridging, None, {}, 0;
    }

    /** What the outer loop does with the outcome of a reconnect attempt. */
    method FinishReconnect(flushed: nat)
      requires phase.Reconnecting?
      modifies this
      ensures View() == OnReconnected(old(View()), flushed)
    {
      hide Deliveries, Bridge;
      latest := latest + 1;
      log := log + [Handshake(latest)];
      var done := FlushQueue(flushed);
      if done {
        queue, gen, ended := [], latest, false;
      }
      EnterBridge();
    }

    method MonitorArm(arm: Action)
      requires phase.Reconnecting?
      modifies this, tracker
      ensures View() == Next(old(View()), arm)
    {
      match arm
      case ClientLine(line, sent, reached) => QueueClientLine(line, sent, reached);
      case ClientGone => phase := Exited(StdinClosed);
      case ParentGone => phase := Exited(ParentDied);
      case Reconnected(flushed) => FinishReconnect(flushed);
      case ReconnectFailed => EnterBridge();
      case _ =>
    }

    /** `monitor_client_during_reconnect`: one arm after the other until the attempt is over. */
    method MonitorClient(arms: seq<Action>) returns (used: nat)
      requires phase.Reconnecting?
      modifies this, tracker
      ensures used <= |arms| && View() == After(old(View()), arms[..used])
      ensures used == |arms| || !phase.Reconnecting?
      ensures arms != [] ==> used > 0
    {
      used := 0;
      while used < |arms| && phase.Reconnecting?
        invariant used <= |arms| && View() == After(old(View()), arms[..used])
        invariant used == 0 ==> phase == old(phase)
      {
        assert arms[..used + 1][..used] == arms[..used];
        MonitorArm(arms[used]);
        used := used + 1;
      }
    }

    /** The failing of pending requests between two bridges; the errors written are what is logged. */
    method FailRequests(order: seq<string>, room: nat, flushes: bool) returns (written: bool, ghost through: set<Id>)
      requires phase.Broken? && Drains(order, tracker.clientPending)
      modifies this, tracker
      ensures View() == Next(old(View()), FailPending(written, through))
      ensures written <==> order == [] || (room >= |order| && flushes)
      ensures forall id :: id in through <==> id in IdsOf(old(tracker.clientPending), order[..Least(room, |order|)])
    {
      ghost var pending := tracker.clientPending;
      var errors;
      errors, written := tracker.FailPendingClientRequests(order, room, flushes);
      through := set id | id in errors;
      AllOrSome(pending, order, errors, Least(room, |order|));
      assert through == pending.Values * through && (written && order != [] ==> through == pending.Values);
      if order != [] { log := log + [Failed(through)]; }
      phase := if written then Reconnecting else Exited(StdoutClosed);
    }

    /** Reports what the given action says came through. */
    method FailAsGiven(written: bool, through: set<Id>)
      requires phase.Broken?
      modifies this, tracker
      ensures View() == Next(old(View()), FailPending(written, through))
    {
      ghost var pending, before := tracker.clientPending, View();
      var order, n := DrainOrder(tracker.clientPending, through);
      var all, which := FailRequests(order, if written then |order| else n, written);
      SameThrough(pending, order, n, through, which, written);
      SameFailure(before, all, which, written, through);
    }

    /** One bridge, one failing of pending requests, or one reconnect. */
    method Leg(acts: seq<Action>) returns (used: nat)
      requires acts != [] && !phase.Exited?
      modifies this, tracker
      ensures 0 < used <= |acts| && View() == After(old(View()), acts[..used])
    {
      if phase.Bridging? {
        used := BridgePhase(acts);
      } else if phase.Reconnecting? {
        used := MonitorClient(acts);
      } else {
        used := 1;
        assert acts[..1] == [acts[0]] && [acts[0]][..0] == [];
        if acts[0].FailPending? { FailAsGiven(acts[0].written, acts[0].through); }
      }
    }

    /** `bridge_loop`: bridge, fail what was pending, reconnect, until the proxy exits or nothing more happens. */
    method BridgeLoop(acts: seq<Action>) returns (used: nat)
      modifies this, tracker
      ensures used <= |acts| && View() == After(old(View()), acts[..used])
      ensures used == |acts| || phase.Exited?
    {
      used := 0;
      while used < |acts| && !phase.Exited?
        invariant used <= |acts| && View() == After(old(View()), acts[..used])
        decreases |acts| - used
      {
        var n := Leg(acts[used..]);
        AfterLegs(old(View()), acts, used, n);
        used := used + n;
      }
    }
  }
}
