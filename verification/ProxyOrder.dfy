/**
 Delivery and answers in runs where every reconnect and every flush succeeds.

 The source answers queued requests with an error when a reconnect or flush fails and flushes them
 later all the same, so these results need the hypothesis; `ProxyAnswers.FailedReconnectAnswersTwice`
 shows it cannot be dropped.
 */
module ProxyOrder {
  import opened Options
  import opened Proxy

  predicate Smooth(s: State, a: Action) {
    s.phase.Reconnecting? ==> !a.ReconnectFailed? && (a.Reconnected? ==> a.flushed >= |s.queue|)
  }

  ghost predicate SmoothRun(pid: nat, acts: seq<Action>) {
    forall i :: 0 <= i < |acts| ==> Smooth(After(Init(pid), acts[..i]), acts[i])
  }

  /** The client lines read, in stdin order. */
  function Taken(log: seq<Event>): seq<Line> {
    if log == [] then [] else
      var e := log[|log| - 1];
      Taken(log[..|log| - 1]) + if e.Read? || e.Consumed? then [e.line] else []
  }

  /** The deliveries, in the order they were written, whatever the generation. */
  function Delivered(log: seq<Event>): seq<Queued> {
    if log == [] then [] else
      var e := log[|log| - 1];
      Delivered(log[..|log| - 1]) + if e.Deliver? then [Queued(e.index, e.line)] else []
  }

  /** The generation whose handshake came last. */
  function Greeted(log: seq<Event>): Option<nat> {
    if log == [] then None else
      var e := log[|log| - 1];
      if e.Handshake? then Some(e.gen) else Greeted(log[..|log| - 1])
  }

  /** Handshakes are with ever newer generations, and lines go only to the generation whose handshake came last. */
  ghost predicate Sequenced(log: seq<Event>) {
    log != [] ==>
      var e, before := log[|log| - 1], log[..|log| - 1];
      && Sequenced(before)
      && (e.Handshake? && Greeted(before).Some? ==> e.gen > Greeted(before).value)
      && (e.Deliver? ==> Greeted(before) == Some(e.gen))
  }

  lemma Append(log: seq<Event>, e: Event)
    ensures Taken(log + [e]) == Taken(log) + if e.Read? || e.Consumed? then [e.line] else []
    ensures Delivered(log + [e]) == Delivered(log) + if e.Deliver? then [Queued(e.index, e.line)] else []
    ensures Greeted(log + [e]) == if e.Handshake? then Some(e.gen) else Greeted(log)
    ensures Sequenced(log + [e]) == (Sequenced(log)
              && (e.Handshake? && Greeted(log).Some? ==> e.gen > Greeted(log).value)
              && (e.Deliver? ==> Greeted(log) == Some(e.gen)))
  {
    assert (log + [e])[..|log|] == log;
  }

  lemma MoreDeliveries(log: seq<Event>, gen: nat, queue: seq<Queued>)
    requires queue != []
    ensures var n := |queue| - 1;
      log + Deliveries(gen, queue) == log + Deliveries(gen, queue[..n]) + [Deliver(gen, queue[n].index, queue[n].line)]
  {
  }

  lemma {:induction false} AppendDeliveries(log: seq<Event>, gen: nat, queue: seq<Queued>)
    ensures var l := log + Deliveries(gen, queue); Taken(l) == Taken(log) && Delivered(l) == Delivered(log) + queue
  {
    if queue == [] {
      assert log + Deliveries(gen, queue) == log;
    } else {
      var n := |queue| - 1;
      AppendDeliveries(log, gen, queue[..n]);
      Append(log + Deliveries(gen, queue[..n]), Deliver(gen, queue[n].index, queue[n].line));
      MoreDeliveries(log, gen, queue);
      assert queue == queue[..n] + [queue[n]];
    }
  }

  lemma {:induction false} SequencedDeliveries(log: seq<Event>, gen: nat, queue: seq<Queued>)
    requires Greeted(log) == Some(gen) && Sequenced(log)
    ensures var l := log + Deliveries(gen, queue); Greeted(l) == Some(gen) && Sequenced(l)
  {
    if queue == [] {
      assert log + Deliveries(gen, queue) == log;
    } else {
      var n := |queue| - 1;
      SequencedDeliveries(log, gen, queue[..n]);
      Append(log + Deliveries(gen, queue[..n]), Deliver(gen, queue[n].index, queue[n].line));
      MoreDeliveries(log, gen, queue);
    }
  }

  ghost predicate Increasing(q: seq<Queued>) { forall i, j :: 0 <= i < j < |q| ==> q[i].index < q[j].index }

  ghost predicate Authentic(q: seq<Queued>, taken: seq<Line>) {
    forall i :: 0 <= i < |q| ==> q[i].index < |taken| && q[i].line == taken[q[i].index]
  }

  /** What was and will be delivered is what was read, in the order it was read. */
  ghost predicate Ordered(s: State) {
    && |Taken(s.log)| == s.taken
    && (!s.phase.Exited? && !s.phase.Reconnecting? ==> s.queue == [])
    && s.gen == s.latest && Greeted(s.log) == Some(s.latest) && Sequenced(s.log)
    && Increasing(Delivered(s.log) + s.queue)
    && Authentic(Delivered(s.log) + s.queue, Taken(s.log))
  }

  lemma Extended(q: seq<Queued>, taken: seq<Line>, line: Line)
    requires Increasing(q) && Authentic(q, taken)
    ensures Authentic(q, taken + [line])
    ensures Increasing(q + [Queued(|taken|, line)]) && Authentic(q + [Queued(|taken|, line)], taken + [line])
  {
  }

  lemma BridgedInOrder(s: State, line: Line, sent: bool, reached: bool)
    requires Ordered(s) && s.phase.Bridging?
    ensures Ordered(OnClientLine(s, line, sent, reached))
  {
    hide Taken, Delivered, Greeted, Sequenced;
    var q := Queued(s.taken, line);
    Append(s.log, Read(line));
    Append(s.log + [Read(line)], Deliver(s.gen, s.taken, line));
    assert Delivered(s.log) + s.queue == Delivered(s.log);
    Extended(Delivered(s.log), Taken(s.log), line);
    var t := OnClientLine(s, line, sent, reached);
    assert Delivered(t.log) + t.queue == Delivered(s.log) || Delivered(t.log) + t.queue == Delivered(s.log) + [q];
  }

  lemma EnqueuedInOrder(s: State, line: Line)
    requires Ordered(s) && s.phase.Reconnecting?
    ensures Ordered(Enqueue(s, line))
  {
    hide Taken, Delivered, Greeted, Sequenced;
    var q := Queued(s.taken, line);
    Append(s.log, Read(line));
    Extended(Delivered(s.log) + s.queue, Taken(s.log), line);
    var t := Enqueue(s, line);
    assert Delivered(t.log) + t.queue == Delivered(s.log) + s.queue
        || Delivered(t.log) + t.queue == Delivered(s.log) + s.queue + [q];
  }

  lemma FlushedLog(s: State)
    requires Ordered(s)
    ensures var h := s.log + [Handshake(s.latest + 1)]; Greeted(h) == Some(s.latest + 1) && Sequenced(h)
    ensures var l := s.log + [Handshake(s.latest + 1)] + Deliveries(s.latest + 1, s.queue);
      && Taken(l) == Taken(s.log) && Delivered(l) == Delivered(s.log) + s.queue
      && Greeted(l) == Some(s.latest + 1) && Sequenced(l)
  {
    hide Taken, Delivered, Greeted, Sequenced;
    Append(s.log, Handshake(s.latest + 1));
    AppendDeliveries(s.log + [Handshake(s.latest + 1)], s.latest + 1, s.queue);
    SequencedDeliveries(s.log + [Handshake(s.latest + 1)], s.latest + 1, s.queue);
  }

  lemma ReconnectedInOrder(s: State)
    requires Ordered(s) && s.phase.Reconnecting?
    ensures Ordered(OnReconnected(s, |s.queue|))
  {
    hide Taken, Delivered, Greeted, Sequenced;
    FlushedLog(s);
    assert s.queue[..|s.queue|] == s.queue;
    var t := OnReconnected(s, |s.queue|);
    assert t.log == s.log + [Handshake(s.latest + 1)] + Deliveries(s.latest + 1, s.queue);
    assert t.queue == [] && Delivered(t.log) + t.queue == Delivered(s.log) + s.queue;
  }

  /** Events that are no line read or delivered, and no handshake. */
  lemma NoteInOrder(s: State, t: State, e: Event)
    requires Ordered(s) && (e.FromDaemon? || e.Failed? || e.Pinged?)
    requires t.log == s.log || t.log == s.log + [e]
    requires t.taken == s.taken && t.queue == s.queue && t.gen == s.gen && t.latest == s.latest
    requires t.phase == s.phase || t.phase.Exited? || s.queue == []
    ensures Ordered(t)
  {
    hide Taken, Delivered, Greeted, Sequenced;
    Append(s.log, e);
    assert Delivered(t.log) == Delivered(s.log) && Taken(t.log) == Taken(s.log);
  }

  lemma ConsumedInOrder(s: State, line: Line)
    requires Ordered(s) && s.phase.Bridging? && ConsumesPing(s, line)
    ensures Ordered(ConsumePing(s, line))
  {
    hide Taken, Delivered, Greeted, Sequenced;
    Append(s.log, Consumed(line));
    Extended(Delivered(s.log) + s.queue, Taken(s.log), line);
  }

  lemma ClientLineInOrder(s: State, line: Line, sent: bool, reached: bool)
    requires Ordered(s)
    ensures Ordered(Next(s, ClientLine(line, sent, reached)))
  {
    if s.phase.Reconnecting? {
      EnqueuedInOrder(s, line);
    } else if s.phase.Bridging? && ConsumesPing(s, line) {
      ConsumedInOrder(s, line);
    } else if s.phase.Bridging? {
      BridgedInOrder(s, line, sent, reached);
    }
  }

  lemma FailPendingInOrder(s: State, written: bool, through: set<Id>)
    requires Ordered(s)
    ensures Ordered(Next(s, FailPending(written, through)))
  {
    var ids := s.tracker.clientPending.Values;
    NoteInOrder(s, Next(s, FailPending(written, through)), Failed(if written then ids else ids * through));
  }

  lemma StepOrdered(s: State, a: Action)
    requires Ordered(s) && Smooth(s, a)
    ensures Ordered(Next(s, a))
  {
    if a.ClientLine? {
      ClientLineInOrder(s, a.line, a.sent, a.reached);
    } else if a.Reconnected? {
      if s.phase.Reconnecting? { ReconnectedInOrder(s); }
    } else if a.FailPending? {
      FailPendingInOrder(s, a.written, a.through);
    } else {
      var e := if a.DaemonLine? then FromDaemon(s.gen, a.line) else Pinged(PingId(s.pid, s.sequence + 1));
      NoteInOrder(s, Next(s, a), e);
    }
  }

  lemma {:induction false} SmoothPrefix(pid: nat, acts: seq<Action>)
    requires SmoothRun(pid, acts) && acts != []
    ensures var n := |acts| - 1; SmoothRun(pid, acts[..n]) && Smooth(After(Init(pid), acts[..n]), acts[n])
  {
    var n := |acts| - 1;
    forall i | 0 <= i < n ensures Smooth(After(Init(pid), acts[..n][..i]), acts[..n][i]) {
      assert acts[..n][..i] == acts[..i];
    }
  }

  /** Every line reaches at most one generation, after that generation's handshake and in stdin order. */
  lemma {:induction false} DeliveryInOrder(pid: nat, acts: seq<Action>)
    requires SmoothRun(pid, acts)
    ensures Ordered(After(Init(pid), acts))
  {
    if acts == [] {
      Append([], Handshake(0));
      assert [] + [Handshake(0)] == Init(pid).log;
    } else {
      SmoothPrefix(pid, acts);
      DeliveryInOrder(pid, acts[..|acts| - 1]);
      StepOrdered(After(Init(pid), acts[..|acts| - 1]), acts[|acts| - 1]);
    }
  }
}
