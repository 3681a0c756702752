/** What every run of the proxy keeps. */
module ProxySafety {
  import opened Options
  import opened Proxy
  import opened Sums

  // ---- A ping is outstanding only when no client request is ----

  ghost predicate PingQuiet(s: State) {
    && (s.phase.Bridging? && s.pending.Some? ==> s.tracker.clientPending == map[])
    && (s.phase == Exited(ClientUnresponsive) ==> s.tracker.clientPending == map[])
  }

  lemma StepQuiet(s: State, a: Action)
    requires PingQuiet(s)
    ensures PingQuiet(Next(s, a))
  {
    hide PingId;
  }

  lemma {:induction false} UnresponsiveOnlyWhenIdle(pid: nat, acts: seq<Action>)
    ensures PingQuiet(After(Init(pid), acts))
  {
    if acts != [] {
      hide Next, PingQuiet;
      UnresponsiveOnlyWhenIdle(pid, acts[..|acts| - 1]);
      StepQuiet(After(Init(pid), acts[..|acts| - 1]), acts[|acts| - 1]);
    }
  }

  // ---- No client request is silently lost ----

  predicate AnswerTo(e: Event, id: Id) {
    match e
    case FromDaemon(_, line) => line.Object? && !line.method_ && line.outcome && line.id == Some(id)
    case Failed(ids) => id in ids
    case _ => false
  }

  predicate RequestOf(e: Event, id: Id) {
    e.Read? && e.line.Object? && e.line.method_ && e.line.id == Some(id) && Key(id).Some?
  }

  predicate PendingIn(t: Tracker, id: Id) {
    Key(id).Some? && Key(id).value in t.clientPending && t.clientPending[Key(id).value] == id
  }

  /** Every request the tracker saw is pending, or answered later than it was read. */
  ghost predicate Accounted(s: State) {
    forall i, id :: 0 <= i < |s.log| && RequestOf(s.log[i], id) ==>
      || PendingIn(s.tracker, id)
      || s.phase.Exited?
      || exists j :: i < j < |s.log| && AnswerTo(s.log[j], id)
  }

  ghost predicate KeysMatch(t: Tracker) {
    forall k :: k in t.clientPending ==> Key(t.clientPending[k]) == Some(k)
  }

  /** A step accounts for what it read, and for what it stopped waiting for. */
  lemma Extends(s: State, t: State)
    requires Accounted(s) && s.log <= t.log && (s.phase.Exited? ==> t.phase.Exited?)
    requires t.phase.Exited? || forall id :: PendingIn(s.tracker, id) ==>
               PendingIn(t.tracker, id) || exists j :: |s.log| <= j < |t.log| && AnswerTo(t.log[j], id)
    requires t.phase.Exited? || forall i, id :: |s.log| <= i < |t.log| && RequestOf(t.log[i], id) ==>
               PendingIn(t.tracker, id)
    ensures Accounted(t)
  {
    forall i, id | 0 <= i < |t.log| && RequestOf(t.log[i], id) && !t.phase.Exited? && !PendingIn(t.tracker, id)
      ensures exists j :: i < j < |t.log| && AnswerTo(t.log[j], id)
    {
      assert i < |s.log| && s.log[i] == t.log[i];
      if !PendingIn(s.tracker, id) {
        var j :| i < j < |s.log| && AnswerTo(s.log[j], id);
        assert t.log[j] == s.log[j];
      }
    }
  }

  /** Observing a client line makes its request pending and keeps every other pending one: keys are distinct. */
  lemma ClientKeeps(t: Tracker, line: Line)
    requires KeysMatch(t)
    ensures ObserveClient(t, line).Some? ==>
              && KeysMatch(ObserveClient(t, line).value)
              && (forall id :: PendingIn(t, id) ==> PendingIn(ObserveClient(t, line).value, id))
              && (forall id :: RequestOf(Read(line), id) ==> PendingIn(ObserveClient(t, line).value, id))
    ensures ObserveClient(t, line).None? ==> forall id :: !RequestOf(Read(line), id)
  {
    if ObserveClient(t, line).Some? {
      forall id | PendingIn(t, id) ensures PendingIn(ObserveClient(t, line).value, id) {
        if Asks(line, Key(id).value) { KeysDistinguish(id, line.id.value); }
      }
    }
  }

  /** Only a response with its id ends the wait for a request. */
  lemma DaemonKeeps(t: Tracker, gen: nat, line: Line)
    requires KeysMatch(t)
    ensures KeysMatch(ObserveDaemon(t, line))
    ensures forall id :: PendingIn(t, id) ==>
              PendingIn(ObserveDaemon(t, line), id) || AnswerTo(FromDaemon(gen, line), id)
  {
    forall id | PendingIn(t, id) && !PendingIn(ObserveDaemon(t, line), id) ensures AnswerTo(FromDaemon(gen, line), id) {
      KeysDistinguish(id, line.id.value);
    }
  }

  lemma DaemonLineAccounted(s: State, line: Line, written: bool)
    requires KeysMatch(s.tracker) && Accounted(s)
    ensures var t := Next(s, DaemonLine(line, written)); KeysMatch(t.tracker) && Accounted(t)
  {
    var t := Next(s, DaemonLine(line, written));
    DaemonKeeps(s.tracker, s.gen, line);
    if t != s && written { assert t.log[|s.log|] == FromDaemon(s.gen, line); }
    Extends(s, t);
  }

  lemma ClientLineAccounted(s: State, line: Line, sent: bool, reached: bool)
    requires KeysMatch(s.tracker) && Accounted(s)
    ensures var t := Next(s, ClientLine(line, sent, reached)); KeysMatch(t.tracker) && Accounted(t)
  {
    ClientKeeps(s.tracker, line);
    Extends(s, Next(s, ClientLine(line, sent, reached)));
  }

  lemma FailAccounted(s: State, written: bool, through: set<Id>)
    requires KeysMatch(s.tracker) && Accounted(s)
    ensures var t := Next(s, FailPending(written, through)); KeysMatch(t.tracker) && Accounted(t)
  {
    var t := Next(s, FailPending(written, through));
    if t != s && s.tracker.clientPending != map[] && written {
      assert t.log[|s.log|] == Failed(s.tracker.clientPending.Values);
      forall id | PendingIn(s.tracker, id) ensures AnswerTo(t.log[|s.log|], id) {}
    }
    Extends(s, t);
  }

  lemma StepAccounted(s: State, a: Action)
    requires KeysMatch(s.tracker) && Accounted(s)
    ensures KeysMatch(Next(s, a).tracker) && Accounted(Next(s, a))
  {
    hide Accounted;
    if a.DaemonLine? { DaemonLineAccounted(s, a.line, a.written); }
    else if a.ClientLine? { ClientLineAccounted(s, a.line, a.sent, a.reached); }
    else if a.FailPending? { FailAccounted(s, a.written, a.through); }
    else { Extends(s, Next(s, a)); }
  }

  /** Across any number of daemon deaths, a request the proxy read is pending, or answered, or the proxy has exited. */
  lemma {:induction false} NoRequestLost(pid: nat, acts: seq<Action>)
    ensures KeysMatch(After(Init(pid), acts).tracker) && Accounted(After(Init(pid), acts))
  {
    if acts != [] {
      NoRequestLost(pid, acts[..|acts| - 1]);
      StepAccounted(After(Init(pid), acts[..|acts| - 1]), acts[|acts| - 1]);
    }
  }

  /** A well-formed request is never mistaken for a reply to a ping, so it is read in the above sense. */
  lemma RequestsAreRead(s: State, line: Line, sent: bool, reached: bool)
    requires (s.phase.Bridging? || s.phase.Reconnecting?) && line.Object? && line.method_ && !line.outcome
    ensures Read(line) in Next(s, ClientLine(line, sent, reached)).log[|s.log|..]
  {
    assert Next(s, ClientLine(line, sent, reached)).log[|s.log|] == Read(line);
  }

  // ---- Replies reach only the daemon that asked ----

  function ForwardOf(gen: nat, k: string): Event -> nat {
    (e: Event) => if e.Deliver? && e.gen == gen && Answers(e.line, k) then 1 else 0
  }

  function RequestFrom(gen: nat, k: string): Event -> nat {
    (e: Event) => if e.FromDaemon? && e.gen == gen && Asks(e.line, k) then 1 else 0
  }

  /** The requests with this id a daemon has sent and not yet had a reply to. */
  ghost function Owed(log: seq<Event>, gen: nat, k: string): int {
    Sum(log, RequestFrom(gen, k)) - Sum(log, ForwardOf(gen, k))
  }

  /** Never more replies forwarded to a daemon than requests it sent with the id; a key the tracker holds is still
      owed one. */
  ghost predicate RepliesOwed(s: State) {
    && (forall g, k ::
          Owed(s.log, g, k) >= if g == s.gen && k in s.tracker.serverPending && !s.phase.Exited? then 1 else 0)
    && (s.phase.Reconnecting? ==> s.tracker.serverPending == {})
    && (forall i, k :: 0 <= i < |s.queue| ==> !Answers(s.queue[i].line, k))
  }

  lemma Counts(log: seq<Event>, e: Event)
    ensures forall g, k :: Owed(log + [e], g, k) == Owed(log, g, k) + RequestFrom(g, k)(e) - ForwardOf(g, k)(e)
  {
    hide Sum;
    forall g, k ensures Owed(log + [e], g, k) == Owed(log, g, k) + RequestFrom(g, k)(e) - ForwardOf(g, k)(e) {
      SumAppend(log, ForwardOf(g, k), e);
      SumAppend(log, RequestFrom(g, k), e);
    }
  }

  /** The queue holds no replies, so flushing it forwards none. */
  lemma {:induction false} FlushCounts(log: seq<Event>, gen: nat, queue: seq<Queued>)
    requires forall i, k :: 0 <= i < |queue| ==> !Answers(queue[i].line, k)
    ensures forall g, k :: Owed(log + Deliveries(gen, queue), g, k) == Owed(log, g, k)
  {
    if queue == [] {
      assert log + Deliveries(gen, queue) == log;
    } else {
      var n := |queue| - 1;
      FlushCounts(log, gen, queue[..n]);
      Counts(log + Deliveries(gen, queue[..n]), Deliver(gen, queue[n].index, queue[n].line));
      assert log + Deliveries(gen, queue)
          == log + Deliveries(gen, queue[..n]) + [Deliver(gen, queue[n].index, queue[n].line)];
    }
  }

  /** A reply is let through only if the tracker holds its key, and then the tracker gives the key up. */
  lemma RepliesPaid(t: Tracker, line: Line, k: string)
    requires ObserveClient(t, line).Some?
    ensures var u := ObserveClient(t, line).value;
      && u.serverPending <= t.serverPending
      && (Answers(line, k) ==> k in t.serverPending && k !in u.serverPending)
  {
  }

  lemma ClientLineOwed(s: State, line: Line, sent: bool, reached: bool)
    requires RepliesOwed(s) && s.phase.Bridging?
    ensures RepliesOwed(OnClientLine(s, line, sent, reached))
  {
    hide Sum;
    var t := OnClientLine(s, line, sent, reached);
    Counts(s.log, Read(line));
    Counts(s.log + [Read(line)], Deliver(s.gen, s.taken, line));
    forall g, k ensures Owed(t.log, g, k) >= if g == t.gen && k in t.tracker.serverPending then 1 else 0 {
      if ObserveClient(s.tracker, line).Some? { RepliesPaid(s.tracker, line, k); }
    }
  }

  lemma DaemonLineOwed(s: State, line: Line, written: bool)
    requires RepliesOwed(s) && s.phase.Bridging?
    ensures RepliesOwed(OnDaemonLine(s, line, written))
  {
    hide Sum;
    Counts(s.log, FromDaemon(s.gen, line));
  }

  lemma ReconnectedOwed(s: State, flushed: nat)
    requires RepliesOwed(s) && s.phase.Reconnecting?
    ensures RepliesOwed(OnReconnected(s, flushed))
  {
    hide Sum;
    var n := if flushed <= |s.queue| then flushed else |s.queue|;
    Counts(s.log, Handshake(s.latest + 1));
    FlushCounts(s.log + [Handshake(s.latest + 1)], s.latest + 1, s.queue[..n]);
  }

  lemma EnqueueOwed(s: State, line: Line)
    requires RepliesOwed(s) && s.phase.Reconnecting?
    ensures RepliesOwed(Enqueue(s, line))
  {
    hide Sum;
    Counts(s.log, Read(line));
    forall k ensures ObserveClient(s.tracker, line).Some? ==> !Answers(line, k) {
      if ObserveClient(s.tracker, line).Some? { RepliesPaid(s.tracker, line, k); }
    }
  }

  lemma FailOwed(s: State, written: bool, through: set<Id>)
    requires RepliesOwed(s) && s.phase.Broken?
    ensures RepliesOwed(FailAll(s, written, through))
  {
    hide Sum;
    Counts(s.log, Failed(s.tracker.clientPending.Values));
    Counts(s.log, Failed(s.tracker.clientPending.Values * through));
  }

  lemma ReadOwed(s: State, a: Action)
    requires RepliesOwed(s) && a.ClientLine?
    ensures RepliesOwed(Next(s, a))
  {
    hide Sum;
    if s.phase.Reconnecting? {
      EnqueueOwed(s, a.line);
    } else if s.phase.Bridging? && !ConsumesPing(s, a.line) {
      ClientLineOwed(s, a.line, a.sent, a.reached);
    } else {
      Counts(s.log, Consumed(a.line));
    }
  }

  lemma StepRepliesOwed(s: State, a: Action)
    requires RepliesOwed(s)
    ensures RepliesOwed(Next(s, a))
  {
    hide Sum;
    match a
    case DaemonLine(line, written) => if s.phase.Bridging? { DaemonLineOwed(s, line, written); }
    case ClientLine(_, _, _) => ReadOwed(s, a);
    case IdleFired(_, _) => Counts(s.log, Pinged(PingId(s.pid, s.sequence + 1)));
    case FailPending(written, through) => if s.phase.Broken? { FailOwed(s, written, through); }
    case Reconnected(flushed) => if s.phase.Reconnecting? { ReconnectedOwed(s, flushed); }
    case _ =>
  }

  /** Replies to dead generations are dropped, and every generation ever connected is owed what it is sent. */
  lemma {:induction false} RepliesBounded(pid: nat, acts: seq<Action>)
    ensures RepliesOwed(After(Init(pid), acts))
  {
    if acts == [] {
      forall g, k ensures Owed(Init(pid).log, g, k) == 0 {
        Counts([], Handshake(0));
        assert [] + [Handshake(0)] == Init(pid).log;
      }
    } else {
      RepliesBounded(pid, acts[..|acts| - 1]);
      StepRepliesOwed(After(Init(pid), acts[..|acts| - 1]), acts[|acts| - 1]);
    }
  }

  lemma {:induction false} SumCoversEvent(log: seq<Event>, f: Event -> nat, i: nat)
    requires i < |log|
    ensures f(log[i]) <= Sum(log, f)
  {
    SumUpdate(log, f, i, log[i]);
  }

  /** A reply to a ping of the proxy's, however late, reaches a daemon only if that daemon itself used the id. */
  lemma PingRepliesStay(pid: nat, acts: seq<Action>, i: nat, id: string)
    requires i < |After(Init(pid), acts).log|
    requires var e := After(Init(pid), acts).log[i]; e.Deliver? && Answers(e.line, "s:" + id)
    ensures var log := After(Init(pid), acts).log;
      exists j :: 0 <= j < |log| && log[j].FromDaemon? && log[j].gen == log[i].gen && Asks(log[j].line, "s:" + id)
  {
    var log := After(Init(pid), acts).log;
    var gen, k := log[i].gen, "s:" + id;
    RepliesBounded(pid, acts);
    SumCoversEvent(log, ForwardOf(gen, k), i);
    assert Owed(log, gen, k) >= 0;
    var j := PositiveSummand(log, RequestFrom(gen, k));
  }
}
