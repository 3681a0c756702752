/** No client line is delivered twice, even if reconnects fail: only a flush cut short midway can repeat one. */
module ProxyDelivery {
  import opened Proxy
  import opened ProxyOrder

  /** No flush stops between the first line and the last. */
  predicate Whole(s: State, a: Action) {
    s.phase.Reconnecting? && a.Reconnected? ==> a.flushed == 0 || a.flushed >= |s.queue|
  }

  ghost predicate WholeRun(pid: nat, acts: seq<Action>) {
    forall i :: 0 <= i < |acts| ==> Whole(After(Init(pid), acts[..i]), acts[i])
  }

  /** No line twice among those delivered and those queued; `taken` lines have been read. */
  ghost predicate Apart(delivered: seq<Queued>, queue: seq<Queued>, taken: nat) {
    && (forall i, j :: 0 <= i < j < |delivered| ==> delivered[i].index != delivered[j].index)
    && (forall i, j :: 0 <= i < j < |queue| ==> queue[i].index != queue[j].index)
    && (forall i, j :: 0 <= i < |delivered| && 0 <= j < |queue| ==> delivered[i].index != queue[j].index)
    && (forall i :: 0 <= i < |delivered| ==> delivered[i].index < taken)
    && (forall i :: 0 <= i < |queue| ==> queue[i].index < taken)
  }

  ghost predicate Single(s: State) { Apart(Delivered(s.log), s.queue, s.taken) }

  lemma AllMoved(delivered: seq<Queued>, queue: seq<Queued>, taken: nat)
    requires Apart(delivered, queue, taken)
    ensures Apart(delivered + queue, [], taken)
  {
  }

  lemma SomeRepeated(delivered: seq<Queued>, queue: seq<Queued>, taken: nat, n: nat)
    requires 0 < n < |queue|
    ensures !Apart(delivered + queue[..n], queue, taken)
  {
    var d := delivered + queue[..n];
    assert d[|delivered|].index == queue[0].index;
  }

  lemma FlushedDelivers(s: State, flushed: nat)
    requires s.phase.Reconnecting?
    ensures var n := if flushed <= |s.queue| then flushed else |s.queue|;
      Delivered(OnReconnected(s, flushed).log) == Delivered(s.log) + s.queue[..n]
  {
    var n := if flushed <= |s.queue| then flushed else |s.queue|;
    DeliversAfter(s.log, s.latest + 1, s.queue[..n]);
  }

  lemma DeliversAfter(log: seq<Event>, gen: nat, queue: seq<Queued>)
    ensures Delivered(log + [Handshake(gen)] + Deliveries(gen, queue)) == Delivered(log) + queue
  {
    hide Taken, Delivered, Greeted, Sequenced;
    Append(log, Handshake(gen));
    AppendDeliveries(log + [Handshake(gen)], gen, queue);
  }

  /** A flush repeats a line exactly if it stops midway. */
  lemma FlushSingleIff(s: State, flushed: nat)
    requires Single(s) && s.phase.Reconnecting?
    ensures Single(OnReconnected(s, flushed)) <==> flushed == 0 || flushed >= |s.queue|
  {
    var d, t := Delivered(s.log), OnReconnected(s, flushed);
    FlushedDelivers(s, flushed);
    if flushed >= |s.queue| {
      assert s.queue[..|s.queue|] == s.queue && t.queue == [];
      AllMoved(d, s.queue, s.taken);
    } else if flushed == 0 {
      assert d + s.queue[..0] == d;
    } else {
      SomeRepeated(d, s.queue, s.taken, flushed);
    }
  }

  lemma ReadSingle(s: State, line: Line, sent: bool, reached: bool)
    requires Single(s) && s.phase.Bridging?
    ensures Single(OnClientLine(s, line, sent, reached))
  {
    hide Taken, Delivered, Greeted, Sequenced;
    var t := OnClientLine(s, line, sent, reached);
    Append(s.log, Read(line));
    Append(s.log + [Read(line)], Deliver(s.gen, s.taken, line));
    assert Delivered(t.log) == Delivered(s.log) || Delivered(t.log) == Delivered(s.log) + [Queued(s.taken, line)];
  }

  lemma QueuedApart(delivered: seq<Queued>, queue: seq<Queued>, taken: nat, line: Line)
    requires Apart(delivered, queue, taken)
    ensures Apart(delivered, queue, taken + 1) && Apart(delivered, queue + [Queued(taken, line)], taken + 1)
  {
  }

  lemma EnqueueSingle(s: State, line: Line)
    requires Single(s)
    ensures Single(Enqueue(s, line))
  {
    hide Taken, Delivered, Greeted, Sequenced;
    Append(s.log, Read(line));
    QueuedApart(Delivered(s.log), s.queue, s.taken, line);
  }

  lemma OtherSingle(s: State, t: State, e: Event)
    requires Single(s) && !e.Deliver? && (t.log == s.log || t.log == s.log + [e])
    requires t.queue == s.queue && s.taken <= t.taken
    ensures Single(t)
  {
    hide Taken, Delivered, Greeted, Sequenced;
    Append(s.log, e);
    assert Delivered(t.log) == Delivered(s.log);
  }

  lemma ClientLineSingle(s: State, a: Action)
    requires Single(s) && a.ClientLine?
    ensures Single(Next(s, a))
  {
    if s.phase.Reconnecting? {
      EnqueueSingle(s, a.line);
    } else if s.phase.Bridging? && !ConsumesPing(s, a.line) {
      ReadSingle(s, a.line, a.sent, a.reached);
    } else {
      OtherSingle(s, Next(s, a), Consumed(a.line));
    }
  }

  lemma FailSingle(s: State, written: bool, through: set<Id>)
    requires Single(s)
    ensures Single(FailAll(s, written, through))
  {
    var ids := s.tracker.clientPending.Values;
    OtherSingle(s, FailAll(s, written, through), Failed(if written then ids else ids * through));
  }

  /** Steps that neither read, queue nor deliver. */
  lemma QuietSingle(s: State, a: Action)
    requires Single(s) && !a.ClientLine? && !a.Reconnected? && !a.FailPending?
    ensures Single(Next(s, a))
  {
    var t, e := Next(s, a), if a.DaemonLine? then FromDaemon(s.gen, a.line) else Pinged(PingId(s.pid, s.sequence + 1));
    assert t.queue == s.queue && t.taken == s.taken && (t.log == s.log || t.log == s.log + [e]);
    OtherSingle(s, t, e);
  }

  lemma ReconnectSingle(s: State, a: Action)
    requires Single(s) && a.Reconnected? && Whole(s, a)
    ensures Single(Next(s, a))
  {
    if s.phase.Reconnecting? { FlushSingleIff(s, a.flushed); }
  }

  lemma StepSingle(s: State, a: Action)
    requires Single(s) && Whole(s, a)
    ensures Single(Next(s, a))
  {
    if a.ClientLine? {
      ClientLineSingle(s, a);
    } else if a.Reconnected? {
      ReconnectSingle(s, a);
    } else if a.FailPending? {
      if s.phase.Broken? { FailSingle(s, a.written, a.through); }
    } else {
      QuietSingle(s, a);
    }
  }

  /** Failed reconnects included, every line goes to at most one generation, as long as no flush stops midway. */
  lemma {:induction false} DeliveredAtMostOnce(pid: nat, acts: seq<Action>)
    requires WholeRun(pid, acts)
    ensures Single(After(Init(pid), acts))
  {
    if acts == [] {
      Append([], Handshake(0));
      assert [] + [Handshake(0)] == Init(pid).log;
    } else {
      var n := |acts| - 1;
      forall i | 0 <= i < n ensures Whole(After(Init(pid), acts[..n][..i]), acts[..n][i]) {
        assert acts[..n][..i] == acts[..i];
      }
      DeliveredAtMostOnce(pid, acts[..n]);
      StepSingle(After(Init(pid), acts[..n]), acts[n]);
    }
  }
}
