/** Exactly when a request that was answered can be answered again, in any run of disciplined daemons. */
module ProxySecondAnswer {
  import opened Options
  import opened Proxy
  import opened Sums
  import opened ProxySafety
  import opened ProxyOrder
  import opened ProxyAnswers

  predicate Queues(s: State, id: Id) { exists i :: 0 <= i < |s.queue| && RequestLine(s.queue[i].line, id) }

  /** Deliveries of the request to any generation. */
  function GivesAny(id: Id): Event -> nat { (e: Event) => if e.Deliver? && RequestLine(e.line, id) then 1 else 0 }

  // ---- What every disciplined run keeps, failed reconnects and flushes included ----

  /** No generation yet to come was written to or has spoken. */
  ghost predicate Known(log: seq<Event>, latest: nat) {
    forall i :: 0 <= i < |log| && (log[i].Deliver? || log[i].FromDaemon?) ==> log[i].gen <= latest
  }

  ghost predicate GensKnown(s: State) { s.gen <= s.latest && Known(s.log, s.latest) }

  /** What was never read is nowhere, and what is pending is not answered. */
  ghost predicate Traced(s: State, id: Id) {
    && KeysMatch(s.tracker) && GensKnown(s)
    && (Sum(s.log, Reads(id)) == 0 ==>
          && !PendingIn(s.tracker, id) && !Queues(s, id)
          && Sum(s.log, AnswersOf(id)) == 0 && Sum(s.log, GivesAny(id)) == 0)
    && (PendingIn(s.tracker, id) ==> Sum(s.log, AnswersOf(id)) == 0)
  }

  lemma TallyAny(log: seq<Event>, e: Event, id: Id)
    ensures Sum(log + [e], GivesAny(id)) == Sum(log, GivesAny(id)) + GivesAny(id)(e)
  {
    hide Sum;
    SumAppend(log, GivesAny(id), e);
  }

  lemma {:induction false} GivenSomewhere(log: seq<Event>, gen: nat, id: Id)
    ensures Sum(log, Gives(gen, id)) <= Sum(log, GivesAny(id))
  {
    if log != [] {
      var n := |log| - 1;
      GivenSomewhere(log[..n], gen, id);
      Tally(log[..n], log[n], gen, id);
      TallyAny(log[..n], log[n], id);
      assert log[..n] + [log[n]] == log;
    }
  }

  lemma KnownOne(log: seq<Event>, latest: nat, e: Event)
    requires Known(log, latest) && (e.Deliver? || e.FromDaemon? ==> e.gen <= latest)
    ensures Known(log + [e], latest)
  {
  }

  lemma KnownFlush(log: seq<Event>, latest: nat, queue: seq<Queued>)
    requires Known(log, latest)
    ensures Known(log + [Handshake(latest + 1)] + Deliveries(latest + 1, queue), latest + 1)
  {
  }

  lemma DaemonLineTraced(s: State, line: Line, written: bool, id: Id)
    requires Traced(s, id) && s.phase.Bridging? && Key(id).Some? && (Answered(line, id) ==> Received(s, id))
    ensures Traced(OnDaemonLine(s, line, written), id)
  {
    hide Sum;
    StepKeys(s, DaemonLine(line, written));
    KnownOne(s.log, s.latest, FromDaemon(s.gen, line));
    GivenSomewhere(s.log, s.gen, id);
    PendingAfterDaemon(s.tracker, line, id);
    Tally(s.log, FromDaemon(s.gen, line), s.gen, id);
    TallyAny(s.log, FromDaemon(s.gen, line), id);
  }

  lemma ClientLineTraced(s: State, line: Line, sent: bool, reached: bool, id: Id)
    requires Traced(s, id) && s.phase.Bridging? && !ConsumesPing(s, line) && Key(id).Some?
    requires RequestLine(line, id) ==> Sum(s.log, Reads(id)) == 0
    ensures Traced(OnClientLine(s, line, sent, reached), id)
  {
    hide Sum;
    StepKeys(s, ClientLine(line, sent, reached));
    PendingAfterClient(s.tracker, line, id);
    var head, e := s.log + [Read(line)], Deliver(s.gen, s.taken, line);
    Tally(s.log, Read(line), s.gen, id);
    TallyAny(s.log, Read(line), id);
    KnownOne(s.log, s.latest, Read(line));
    KnownOne(head, s.latest, e);
    Tally(head, e, s.gen, id);
    TallyAny(head, e, id);
  }

  lemma EnqueueTraced(s: State, line: Line, id: Id)
    requires Traced(s, id) && s.phase.Reconnecting? && Key(id).Some?
    requires RequestLine(line, id) ==> Sum(s.log, Reads(id)) == 0
    ensures Traced(Enqueue(s, line), id)
  {
    hide Sum;
    StepKeys(s, ClientLine(line, true, true));
    KnownOne(s.log, s.latest, Read(line));
    PendingAfterClient(s.tracker, line, id);
    Tally(s.log, Read(line), s.gen, id);
    TallyAny(s.log, Read(line), id);
  }

  /** Failing the pending requests answers only those. */
  lemma FailCounts(log: seq<Event>, ids: set<Id>, gen: nat, id: Id)
    ensures var l := log + [Failed(ids)];
      && Sum(l, Reads(id)) == Sum(log, Reads(id)) && Sum(l, GivesAny(id)) == Sum(log, GivesAny(id))
      && Sum(l, Gives(gen, id)) == Sum(log, Gives(gen, id))
      && Sum(l, AnswersFrom(gen, id)) == Sum(log, AnswersFrom(gen, id))
      && Sum(l, AnswersOf(id)) == Sum(log, AnswersOf(id)) + if id in ids then 1 else 0
  {
    hide Sum;
    Tally(log, Failed(ids), gen, id);
    TallyAny(log, Failed(ids), id);
  }

  lemma FailSame(s: State, written: bool, through: set<Id>, id: Id)
    requires KeysMatch(s.tracker) && s.phase.Broken? && Key(id).Some?
    ensures var l := FailAll(s, written, through).log;
      && Sum(l, Reads(id)) == Sum(s.log, Reads(id)) && Sum(l, GivesAny(id)) == Sum(s.log, GivesAny(id))
      && Sum(l, Gives(s.gen, id)) == Sum(s.log, Gives(s.gen, id))
      && Sum(l, AnswersFrom(s.gen, id)) == Sum(s.log, AnswersFrom(s.gen, id))
      && (!PendingIn(s.tracker, id) ==> Sum(l, AnswersOf(id)) == Sum(s.log, AnswersOf(id)))
  {
    hide Sum;
    var ids := s.tracker.clientPending.Values;
    assert id in ids <==> PendingIn(s.tracker, id);
    FailCounts(s.log, ids, s.gen, id);
    FailCounts(s.log, ids * through, s.gen, id);
  }

  lemma FailTraced(s: State, written: bool, through: set<Id>, id: Id)
    requires Traced(s, id) && s.phase.Broken? && Key(id).Some?
    ensures Traced(FailAll(s, written, through), id)
  {
    hide Sum;
    var ids := s.tracker.clientPending.Values;
    KnownOne(s.log, s.latest, Failed(ids));
    KnownOne(s.log, s.latest, Failed(ids * through));
    FailSame(s, written, through, id);
    var t := FailAll(s, written, through);
    assert t.tracker == Tracker(map[], {}) && t.queue == s.queue;
  }

  lemma {:induction false} FlushAny(log: seq<Event>, gen: nat, queue: seq<Queued>, id: Id)
    requires forall i :: 0 <= i < |queue| ==> !RequestLine(queue[i].line, id)
    ensures Sum(log + Deliveries(gen, queue), GivesAny(id)) == Sum(log, GivesAny(id))
  {
    if queue == [] {
      assert log + Deliveries(gen, queue) == log;
    } else {
      var n := |queue| - 1;
      FlushAny(log, gen, queue[..n], id);
      TallyAny(log + Deliveries(gen, queue[..n]), Deliver(gen, queue[n].index, queue[n].line), id);
      MoreDeliveries(log, gen, queue);
    }
  }

  lemma ReconnectedTraced(s: State, flushed: nat, id: Id)
    requires Traced(s, id) && s.phase.Reconnecting? && Key(id).Some?
    ensures Traced(OnReconnected(s, flushed), id)
  {
    hide Sum;
    var n, gen := if flushed <= |s.queue| then flushed else |s.queue|, s.latest + 1;
    var head, t := s.log + [Handshake(gen)], OnReconnected(s, flushed);
    KnownFlush(s.log, s.latest, s.queue[..n]);
    KnownOne(s.log, s.latest, Handshake(gen));
    Tally(s.log, Handshake(gen), gen, id);
    TallyAny(s.log, Handshake(gen), id);
    FlushTally(head, gen, s.queue[..n], id);
    assert t.log == head + Deliveries(gen, s.queue[..n]);
    if Sum(s.log, Reads(id)) == 0 { FlushAny(head, gen, s.queue[..n], id); }
  }

  lemma OtherTraced(s: State, t: State, e: Event, id: Id)
    requires Traced(s, id) && t.tracker == s.tracker && t.queue == s.queue && t.gen == s.gen && t.latest == s.latest
    requires (e.Consumed? || e.Pinged?) && (t.log == s.log || t.log == s.log + [e])
    ensures Traced(t, id)
  {
    hide Sum;
    Tally(s.log, e, s.gen, id);
    TallyAny(s.log, e, id);
    KnownOne(s.log, s.latest, e);
  }

  lemma StepTraced(s: State, a: Action, id: Id)
    requires Traced(s, id) && DisciplinedStep(s, a) && Key(id).Some?
    ensures Traced(Next(s, a), id)
  {
    hide Traced, Sum;
    var t := Next(s, a);
    if a.DaemonLine? && s.phase.Bridging? && !s.ended {
      DaemonLineTraced(s, a.line, a.written, id);
    } else if a.ClientLine? && s.phase.Bridging? && !ConsumesPing(s, a.line) {
      ClientLineTraced(s, a.line, a.sent, a.reached, id);
    } else if a.ClientLine? && s.phase.Reconnecting? {
      EnqueueTraced(s, a.line, id);
    } else if a.FailPending? && s.phase.Broken? {
      FailTraced(s, a.written, a.through, id);
    } else if a.Reconnected? && s.phase.Reconnecting? {
      ReconnectedTraced(s, a.flushed, id);
    } else {
      OtherTraced(s, t, if a.ClientLine? then Consumed(a.line) else Pinged(PingId(s.pid, s.sequence + 1)), id);
    }
  }

  lemma InitTraced(pid: nat, id: Id)
    ensures Traced(Init(pid), id)
  {
    Tally([], Handshake(0), 0, id);
    TallyAny([], Handshake(0), id);
    assert [] + [Handshake(0)] == Init(pid).log;
  }

  lemma RunPrefix(pid: nat, acts: seq<Action>)
    requires DisciplinedRun(pid, acts) && acts != []
    ensures var n := |acts| - 1;
      DisciplinedRun(pid, acts[..n]) && DisciplinedStep(After(Init(pid), acts[..n]), acts[n])
  {
    var n := |acts| - 1;
    forall i | 0 <= i < n ensures DisciplinedStep(After(Init(pid), acts[..n][..i]), acts[..n][i]) {
      assert acts[..n][..i] == acts[..i];
    }
  }

  lemma {:induction false} AlwaysTraced(pid: nat, acts: seq<Action>, id: Id)
    requires DisciplinedRun(pid, acts) && Key(id).Some?
    ensures Traced(After(Init(pid), acts), id)
  {
    if acts == [] {
      InitTraced(pid, id);
    } else {
      var n := |acts| - 1;
      RunPrefix(pid, acts);
      AlwaysTraced(pid, acts[..n], id);
      StepTraced(After(Init(pid), acts[..n]), acts[n], id);
    }
  }

  // ---- Futures ----

  /** Disciplined and, if wanted, smooth from here on. */
  ghost predicate Future(smooth: bool, s: State, acts: seq<Action>) {
    forall i :: 0 <= i < |acts| ==>
      (smooth ==> Smooth(After(s, acts[..i]), acts[i])) && DisciplinedStep(After(s, acts[..i]), acts[i])
  }

  ghost predicate AnswersAgain(smooth: bool, s: State, id: Id) {
    exists acts :: Future(smooth, s, acts) && Sum(After(s, acts).log, AnswersOf(id)) > 1
  }

  lemma FuturePrefix(smooth: bool, s: State, acts: seq<Action>)
    requires Future(smooth, s, acts) && acts != []
    ensures var n := |acts| - 1;
      && Future(smooth, s, acts[..n])
      && (smooth ==> Smooth(After(s, acts[..n]), acts[n])) && DisciplinedStep(After(s, acts[..n]), acts[n])
  {
    var n := |acts| - 1;
    forall i | 0 <= i < n
      ensures smooth ==> Smooth(After(s, acts[..n][..i]), acts[..n][i])
      ensures DisciplinedStep(After(s, acts[..n][..i]), acts[..n][i])
    {
      assert acts[..n][..i] == acts[..i];
    }
  }

  lemma First(s: State, a: Action, acts: seq<Action>)
    ensures After(s, [a] + acts) == After(Next(s, a), acts)
  {
    assert [a][..0] == [] && After(s, [a]) == Next(s, a);
    AfterBoth(s, [a], acts);
  }

  lemma FutureFrom(smooth: bool, s: State, a: Action, acts: seq<Action>)
    requires (smooth ==> Smooth(s, a)) && DisciplinedStep(s, a) && Future(smooth, Next(s, a), acts)
    ensures Future(smooth, s, [a] + acts)
  {
    var more := [a] + acts;
    forall i | 0 <= i < |more|
      ensures smooth ==> Smooth(After(s, more[..i]), more[i])
      ensures DisciplinedStep(After(s, more[..i]), more[i])
    {
      if i > 0 {
        assert more[..i] == [a] + acts[..i - 1];
        First(s, a, acts[..i - 1]);
      }
    }
  }

  lemma Prepend(smooth: bool, s: State, a: Action, id: Id)
    requires (smooth ==> Smooth(s, a)) && DisciplinedStep(s, a) && AnswersAgain(smooth, Next(s, a), id)
    ensures AnswersAgain(smooth, s, id)
  {
    var acts :| Future(smooth, Next(s, a), acts) && Sum(After(Next(s, a), acts).log, AnswersOf(id)) > 1;
    FutureFrom(smooth, s, a, acts);
    First(s, a, acts);
  }

  // ---- A second answer is possible ----

  function ReplyTo(id: Id): Line { Object(false, true, Some(id), 0) }

  /** A daemon that received a request may answer it. */
  lemma ReplyNow(smooth: bool, s: State, id: Id)
    requires s.phase.Bridging? && !s.ended && Received(s, id) && Sum(s.log, AnswersOf(id)) > 0
    ensures AnswersAgain(smooth, s, id)
  {
    hide Sum;
    var b := DaemonLine(ReplyTo(id), true);
    var none: seq<Action> := [];
    Tally(s.log, FromDaemon(s.gen, ReplyTo(id)), s.gen, id);
    assert Future(smooth, Next(s, b), none) && After(Next(s, b), none) == Next(s, b);
    Prepend(smooth, s, b, id);
  }

  lemma NoneFrom(log: seq<Event>, gen: nat, id: Id)
    requires forall i :: 0 <= i < |log| && (log[i].Deliver? || log[i].FromDaemon?) ==> log[i].gen != gen
    ensures Sum(log, AnswersFrom(gen, id)) == 0 && Sum(log, Gives(gen, id)) == 0
  {
    if Sum(log, AnswersFrom(gen, id)) > 0 { var j := PositiveSummand(log, AnswersFrom(gen, id)); }
    if Sum(log, Gives(gen, id)) > 0 { var j := PositiveSummand(log, Gives(gen, id)); }
  }

  lemma {:induction false} FlushSilent(log: seq<Event>, gen: nat, queue: seq<Queued>, g: nat, id: Id)
    ensures Sum(log + Deliveries(gen, queue), AnswersFrom(g, id)) == Sum(log, AnswersFrom(g, id))
    ensures g != gen ==> Sum(log + Deliveries(gen, queue), Gives(g, id)) == Sum(log, Gives(g, id))
  {
    if queue == [] {
      assert log + Deliveries(gen, queue) == log;
    } else {
      var n := |queue| - 1;
      FlushSilent(log, gen, queue[..n], g, id);
      Tally(log + Deliveries(gen, queue[..n]), Deliver(gen, queue[n].index, queue[n].line), g, id);
      MoreDeliveries(log, gen, queue);
    }
  }

  lemma FlushGives(log: seq<Event>, gen: nat, queue: seq<Queued>, id: Id, i: nat)
    requires i < |queue| && RequestLine(queue[i].line, id)
    ensures Sum(log + Deliveries(gen, queue), Gives(gen, id)) > 0
  {
    var l := log + Deliveries(gen, queue);
    assert l[|log| + i] == Deliver(gen, queue[i].index, queue[i].line);
    SumCoversEvent(l, Gives(gen, id), |log| + i);
  }

  /** A new generation that gets the whole queue has received the request exactly if it was queued. */
  lemma FlushReceived(s: State, id: Id)
    requires GensKnown(s)
    ensures var t := OnReconnected(s, |s.queue|);
      && (Received(t, id) <==> Queues(s, id)) && Sum(t.log, AnswersOf(id)) == Sum(s.log, AnswersOf(id))
  {
    hide Sum;
    var gen := s.latest + 1;
    var head := s.log + [Handshake(gen)];
    assert s.queue[..|s.queue|] == s.queue && OnReconnected(s, |s.queue|).log == head + Deliveries(gen, s.queue);
    NoneFrom(head, gen, id);
    Tally(s.log, Handshake(gen), gen, id);
    FlushSilent(head, gen, s.queue, gen, id);
    FlushTally(head, gen, s.queue, id);
    if i :| 0 <= i < |s.queue| && RequestLine(s.queue[i].line, id) { FlushGives(head, gen, s.queue, id, i); }
  }

  lemma FlushedReplies(smooth: bool, s: State, a: Action, t: State, id: Id)
    requires t == Next(s, a) && Smooth(s, a) && DisciplinedStep(s, a)
    requires t.phase.Bridging? && !t.ended && Received(t, id) && Sum(t.log, AnswersOf(id)) > 0
    ensures AnswersAgain(smooth, s, id)
  {
    ReplyNow(smooth, t, id);
    Prepend(smooth, s, a, id);
  }

  lemma FlushThenReply(smooth: bool, s: State, id: Id)
    requires GensKnown(s) && s.phase.Reconnecting? && Queues(s, id) && Sum(s.log, AnswersOf(id)) == 1
    ensures AnswersAgain(smooth, s, id)
  {
    var a := Reconnected(|s.queue|);
    var t := Next(s, a);
    assert t == OnReconnected(s, |s.queue|) && t.phase.Bridging? && !t.ended;
    FlushReceived(s, id);
    FlushedReplies(smooth, s, a, t, id);
  }

  /** Failing what is pending leaves the queue, the stream and an answered request alone. */
  lemma FailedSame(s: State, id: Id)
    requires Traced(s, id) && s.phase.Broken? && Sum(s.log, AnswersOf(id)) == 1 && Key(id).Some?
    ensures var t := Next(s, FailPending(true, {}));
      && Traced(t, id) && t.phase.Reconnecting? && t.queue == s.queue && t.ended == s.ended
      && Sum(t.log, AnswersOf(id)) == 1
      && (Received(t, id) <==> Received(s, id))
  {
    hide Sum;
    FailTraced(s, true, {}, id);
    FailSame(s, true, {}, id);
  }

  lemma OldStreamReplies(s: State, id: Id)
    requires s.phase.Reconnecting? && !s.ended && Received(s, id) && Sum(s.log, AnswersOf(id)) == 1
    ensures AnswersAgain(false, s, id)
  {
    ReplyNow(false, Next(s, ReconnectFailed), id);
    Prepend(false, s, ReconnectFailed, id);
  }

  /** The queue holds the request, or the current stream has not ended and its generation received the request and has
      not answered; if all reconnects and flushes to come succeed, that stream counts only while the bridge is up. */
  ghost predicate Open(smooth: bool, s: State, id: Id) {
    !s.phase.Exited? && (Queues(s, id) || ((smooth ==> s.phase.Bridging?) && !s.ended && Received(s, id)))
  }

  lemma OpenAnswersAgain(smooth: bool, s: State, id: Id)
    requires Traced(s, id) && Key(id).Some? && Sum(s.log, AnswersOf(id)) == 1 && Open(smooth, s, id)
    ensures AnswersAgain(smooth, s, id)
  {
    if s.phase.Bridging? && !s.ended && Received(s, id) {
      ReplyNow(smooth, s, id);
    } else if s.phase.Bridging? {
      var t := Next(s, DaemonGone);
      OpenBroken(smooth, t, id);
      Prepend(smooth, s, DaemonGone, id);
    } else if s.phase.Broken? {
      OpenBroken(smooth, s, id);
    } else {
      OpenReconnecting(smooth, s, id);
    }
  }

  lemma OpenBroken(smooth: bool, s: State, id: Id)
    requires Traced(s, id) && Key(id).Some? && Sum(s.log, AnswersOf(id)) == 1 && s.phase.Broken? && Open(smooth, s, id)
    ensures AnswersAgain(smooth, s, id)
  {
    FailedSame(s, id);
    OpenReconnecting(smooth, Next(s, FailPending(true, {})), id);
    Prepend(smooth, s, FailPending(true, {}), id);
  }

  lemma OpenReconnecting(smooth: bool, s: State, id: Id)
    requires Traced(s, id) && Sum(s.log, AnswersOf(id)) == 1 && s.phase.Reconnecting? && Open(smooth, s, id)
    ensures AnswersAgain(smooth, s, id)
  {
    if Queues(s, id) { FlushThenReply(smooth, s, id); } else { OldStreamReplies(s, id); }
  }

  // ---- And otherwise it is not ----

  ghost predicate Shut(smooth: bool, s: State, id: Id) {
    Traced(s, id) && Sum(s.log, AnswersOf(id)) == 1 && !Open(smooth, s, id)
  }

  lemma DaemonLineShut(smooth: bool, s: State, a: Action, id: Id)
    requires Shut(smooth, s, id) && a.DaemonLine? && s.phase.Bridging? && !s.ended
    requires DisciplinedStep(s, a) && Key(id).Some?
    ensures Sum(Next(s, a).log, AnswersOf(id)) == 1 && !Open(smooth, Next(s, a), id)
  {
    hide Sum;
    Tally(s.log, FromDaemon(s.gen, a.line), s.gen, id);
  }

  lemma ClientLineShut(smooth: bool, s: State, line: Line, sent: bool, reached: bool, id: Id)
    requires Shut(smooth, s, id) && s.phase.Bridging? && !RequestLine(line, id)
    ensures var t := OnClientLine(s, line, sent, reached); Sum(t.log, AnswersOf(id)) == 1 && !Open(smooth, t, id)
  {
    hide Sum;
    var t := OnClientLine(s, line, sent, reached);
    Tally(s.log, Read(line), s.gen, id);
    Tally(s.log + [Read(line)], Deliver(s.gen, s.taken, line), s.gen, id);
    assert t.queue == s.queue && t.gen == s.gen;
  }

  lemma EnqueueShut(smooth: bool, s: State, line: Line, id: Id)
    requires Shut(smooth, s, id) && s.phase.Reconnecting? && !RequestLine(line, id)
    ensures var t := Enqueue(s, line); Sum(t.log, AnswersOf(id)) == 1 && !Open(smooth, t, id)
  {
    hide Sum;
    Tally(s.log, Read(line), s.gen, id);
  }

  lemma FailShut(smooth: bool, s: State, a: Action, id: Id)
    requires Shut(smooth, s, id) && a.FailPending? && s.phase.Broken? && Key(id).Some?
    ensures Sum(Next(s, a).log, AnswersOf(id)) == 1 && !Open(smooth, Next(s, a), id)
  {
    hide Sum;
    FailSame(s, a.written, a.through, id);
  }

  lemma ReconnectedShut(smooth: bool, s: State, a: Action, id: Id)
    requires Shut(smooth, s, id) && a.Reconnected? && s.phase.Reconnecting? && (smooth ==> Smooth(s, a))
    ensures Sum(Next(s, a).log, AnswersOf(id)) == 1 && !Open(smooth, Next(s, a), id)
  {
    if a.flushed >= |s.queue| {
      FlushReceived(s, id);
      assert Next(s, a) == OnReconnected(s, |s.queue|);
    } else {
      CutShortShut(s, a.flushed, id);
    }
  }

  /** A flush cut short writes to a generation whose stream is then dropped, and keeps the old one. */
  lemma CutShortShut(s: State, flushed: nat, id: Id)
    requires Shut(false, s, id) && s.phase.Reconnecting? && flushed < |s.queue|
    ensures var t := OnReconnected(s, flushed); Sum(t.log, AnswersOf(id)) == 1 && !Open(false, t, id)
  {
    hide Sum;
    var gen, t := s.latest + 1, OnReconnected(s, flushed);
    var head := s.log + [Handshake(gen)];
    assert t.log == head + Deliveries(gen, s.queue[..flushed]) && t.queue == s.queue;
    Tally(s.log, Handshake(gen), s.gen, id);
    FlushSilent(head, gen, s.queue[..flushed], s.gen, id);
    FlushTally(head, gen, s.queue[..flushed], id);
  }

  lemma OtherShut(smooth: bool, s: State, t: State, e: Event, id: Id)
    requires Shut(smooth, s, id) && t.queue == s.queue && t.gen == s.gen && (s.ended ==> t.ended)
    requires (e.Consumed? || e.Pinged?) && (t.log == s.log || t.log == s.log + [e])
    requires t.phase == s.phase || t.phase.Exited? || !smooth || !t.phase.Bridging?
    requires s.phase.Exited? ==> t.phase.Exited?
    ensures Sum(t.log, AnswersOf(id)) == 1 && !Open(smooth, t, id)
  {
    hide Sum;
    Tally(s.log, e, s.gen, id);
  }

  lemma StepShut(smooth: bool, s: State, a: Action, id: Id)
    requires Shut(smooth, s, id) && Key(id).Some? && (smooth ==> Smooth(s, a)) && DisciplinedStep(s, a)
    ensures Shut(smooth, Next(s, a), id)
  {
    StepTraced(s, a, id);
    if a.DaemonLine? && s.phase.Bridging? && !s.ended {
      DaemonLineShut(smooth, s, a, id);
    } else if a.ClientLine? && s.phase.Bridging? && !ConsumesPing(s, a.line) {
      ClientLineShut(smooth, s, a.line, a.sent, a.reached, id);
    } else if a.ClientLine? && s.phase.Reconnecting? {
      EnqueueShut(smooth, s, a.line, id);
    } else if a.FailPending? && s.phase.Broken? {
      FailShut(smooth, s, a, id);
    } else if a.Reconnected? && s.phase.Reconnecting? {
      ReconnectedShut(smooth, s, a, id);
    } else {
      var e := if a.ClientLine? then Consumed(a.line) else Pinged(PingId(s.pid, s.sequence + 1));
      OtherShut(smooth, s, Next(s, a), e, id);
    }
  }

  lemma {:induction false} StaysShut(smooth: bool, s: State, acts: seq<Action>, id: Id)
    requires Shut(smooth, s, id) && Key(id).Some? && Future(smooth, s, acts)
    ensures Shut(smooth, After(s, acts), id)
  {
    if acts != [] {
      FuturePrefix(smooth, s, acts);
      StaysShut(smooth, s, acts[..|acts| - 1], id);
      StepShut(smooth, After(s, acts[..|acts| - 1]), acts[|acts| - 1], id);
    }
  }

  /** In any state of any disciplined run, whatever reconnects and flushes failed before: a request answered once can
      be answered again exactly if it is open. */
  lemma SecondAnswerIff(pid: nat, acts: seq<Action>, id: Id, smooth: bool)
    requires DisciplinedRun(pid, acts) && Key(id).Some?
    requires Sum(After(Init(pid), acts).log, AnswersOf(id)) == 1
    ensures AnswersAgain(smooth, After(Init(pid), acts), id) <==> Open(smooth, After(Init(pid), acts), id)
  {
    hide Open, Traced, Sum;
    var s := After(Init(pid), acts);
    AlwaysTraced(pid, acts, id);
    if Open(smooth, s, id) {
      OpenAnswersAgain(smooth, s, id);
    } else {
      forall more | Future(smooth, s, more) ensures Sum(After(s, more).log, AnswersOf(id)) <= 1 {
        StaysShut(smooth, s, more, id);
      }
    }
  }

  // ---- The old stream answers ----

  const ASK := Object(true, false, Some(Null), 0)

  const ASKED := [Handshake(0)] + [Read(ASK)] + [Deliver(0, 0, ASK)]

  /** A request is delivered. */
  lemma FirstAsks(P: State -> bool) returns (s: State)
    requires ProxyAnswers.Closed(P) && P(Init(0))
    ensures P(s) && s == Init(0).(tracker := Tracker(map["null" := Null], {}), taken := 1, log := ASKED)
  {
    forall id | RequestLine(ASK, id) ensures Sum(Init(0).log, Reads(id)) == 0 {
      Tally([], Handshake(0), 0, id);
      assert [] + [Handshake(0)] == Init(0).log;
    }
    assert DisciplinedStep(Init(0), ClientLine(ASK, true, true));
    s := Next(Init(0), ClientLine(ASK, true, true));
  }

  /** Writing the next line fails, and the request is answered with an error.  The stream has not ended. */
  lemma WriteFails(P: State -> bool, s: State, more: Line) returns (t: State)
    requires ProxyAnswers.Closed(P) && P(s) && more.Opaque?
    requires s == Init(0).(tracker := Tracker(map["null" := Null], {}), taken := 1, log := ASKED)
    ensures P(t) && t.phase.Reconnecting? && !t.ended && t.gen == 0 && t.queue == []
    ensures t.log == ASKED + [Read(more)] + [Failed({Null})]
  {
    assert DisciplinedStep(s, ClientLine(more, false, false));
    t := Next(s, ClientLine(more, false, false));
    assert t == s.(phase := Broken, taken := 2, log := ASKED + [Read(more)]);
    var m := map["null" := Null];
    assert m["null"] in m.Values && m.Values == {Null};
    t := Next(t, FailPending(true, {}));
  }

  /** The second answer need not come through the queue: a request is delivered, the write of a later line fails, the
      request is answered with an error, the reconnect fails, and the old stream may still hold the reply. */
  lemma NeverQueuedAnsweredTwice()
    ensures exists s :: ProxyAnswers.Reachable(s) && AnsweredAndOpen(s, Null) && AnswersAgain(false, s, Null)
  {
    ReachableClosed();
    var P: State -> bool := s => ProxyAnswers.Reachable(s);
    var s := FirstAsks(P);
    s := WriteFails(P, s, Opaque(0));
    AskedLog(Opaque(0));
    var acts :| DisciplinedRun(0, acts) && After(Init(0), acts) == s;
    SecondAnswerIff(0, acts, Null, false);
  }

  ghost predicate AnsweredAndOpen(s: State, id: Id) {
    s.queue == [] && Sum(s.log, AnswersOf(id)) == 1 && Open(false, s, id)
  }

  lemma AskedLog(more: Line)
    requires more.Opaque?
    ensures var log := ASKED + [Read(more)] + [Failed({Null})];
      Sum(log, AnswersOf(Null)) == 1 && Sum(log, Gives(0, Null)) == 1 && Sum(log, AnswersFrom(0, Null)) == 0
  {
    var l: seq<Event> := [];
    Tally(l, Handshake(0), 0, Null);
    l := l + [Handshake(0)];
    Tally(l, Read(ASK), 0, Null);
    l := l + [Read(ASK)];
    Tally(l, Deliver(0, 0, ASK), 0, Null);
    assert l + [Deliver(0, 0, ASK)] == ASKED;
    Tally(ASKED, Read(more), 0, Null);
    Tally(ASKED + [Read(more)], Failed({Null}), 0, Null);
  }
}
