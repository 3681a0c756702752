/** At most one answer per request, in smooth runs with well-behaved daemons and distinct request ids. */
module ProxyAnswers {
  import opened Options
  import opened Proxy
  import opened Sums
  import opened ProxySafety
  import opened ProxyOrder

  predicate RequestLine(line: Line, id: Id) {
    line.Object? && line.method_ && line.id == Some(id) && Key(id).Some?
  }

  /** Events that read the request, deliver it to a generation, answer it, answer it from a generation. */
  function Reads(id: Id): Event -> nat { (e: Event) => if RequestOf(e, id) then 1 else 0 }

  function Gives(gen: nat, id: Id): Event -> nat {
    (e: Event) => if e.Deliver? && e.gen == gen && RequestLine(e.line, id) then 1 else 0
  }

  function AnswersOf(id: Id): Event -> nat { (e: Event) => if AnswerTo(e, id) then 1 else 0 }

  function AnswersFrom(gen: nat, id: Id): Event -> nat {
    (e: Event) => if e.FromDaemon? && e.gen == gen && AnswerTo(e, id) then 1 else 0
  }

  predicate Answered(line: Line, id: Id) { Key(id).Some? && AnswerTo(FromDaemon(0, line), id) }

  /** The current daemon was sent the request and has not answered it. */
  ghost predicate Received(s: State, id: Id) {
    Sum(s.log, Gives(s.gen, id)) > 0 && Sum(s.log, AnswersFrom(s.gen, id)) == 0
  }

  /** A daemon answers only requests it received, and each at most once. */
  ghost predicate Disciplined(s: State, a: Action) {
    a.DaemonLine? ==> forall id :: Answered(a.line, id) ==> Received(s, id)
  }

  /** The client does not use an id twice. */
  ghost predicate FreshId(s: State, a: Action) {
    a.ClientLine? ==> forall id :: RequestLine(a.line, id) ==> Sum(s.log, Reads(id)) == 0
  }

  /** Per id: read at most once, and what is pending is not answered yet; what the current daemon still has to
      answer is pending, and so is what waits in the queue. */
  ghost predicate Once(s: State, id: Id) {
    && Sum(s.log, AnswersOf(id)) + (if PendingIn(s.tracker, id) then 1 else 0) <= Sum(s.log, Reads(id)) <= 1
    && (s.phase.Bridging? || s.phase.Broken? ==> Received(s, id) ==> PendingIn(s.tracker, id))
    && (s.phase.Reconnecting? ==>
          forall i :: 0 <= i < |s.queue| && RequestLine(s.queue[i].line, id) ==> PendingIn(s.tracker, id))
  }

  lemma Tally(log: seq<Event>, e: Event, gen: nat, id: Id)
    ensures Sum(log + [e], Reads(id)) == Sum(log, Reads(id)) + Reads(id)(e)
    ensures Sum(log + [e], Gives(gen, id)) == Sum(log, Gives(gen, id)) + Gives(gen, id)(e)
    ensures Sum(log + [e], AnswersOf(id)) == Sum(log, AnswersOf(id)) + AnswersOf(id)(e)
    ensures Sum(log + [e], AnswersFrom(gen, id)) == Sum(log, AnswersFrom(gen, id)) + AnswersFrom(gen, id)(e)
  {
    hide Sum;
    SumAppend(log, Reads(id), e);
    SumAppend(log, Gives(gen, id), e);
    SumAppend(log, AnswersOf(id), e);
    SumAppend(log, AnswersFrom(gen, id), e);
  }

  lemma PendingAfterDaemon(t: Tracker, line: Line, id: Id)
    requires KeysMatch(t) && Key(id).Some?
    ensures PendingIn(ObserveDaemon(t, line), id) <==> PendingIn(t, id) && !Answered(line, id)
  {
    DaemonKeeps(t, 0, line);
  }

  lemma PendingAfterClient(t: Tracker, line: Line, id: Id)
    requires KeysMatch(t) && Key(id).Some?
    ensures ObserveClient(t, line).Some? ==>
              (PendingIn(ObserveClient(t, line).value, id) <==> PendingIn(t, id) || RequestLine(line, id))
    ensures RequestLine(line, id) ==> ObserveClient(t, line).Some?
  {
    ClientKeeps(t, line);
  }

  lemma DaemonLineOnce(s: State, line: Line, written: bool, id: Id)
    requires Once(s, id) && KeysMatch(s.tracker) && s.phase.Bridging? && Key(id).Some?
    requires Answered(line, id) ==> Received(s, id)
    ensures Once(OnDaemonLine(s, line, written), id)
  {
    hide Sum;
    PendingAfterDaemon(s.tracker, line, id);
    Tally(s.log, FromDaemon(s.gen, line), s.gen, id);
  }

  lemma DroppedOnce(s: State, line: Line, sent: bool, reached: bool, id: Id)
    requires Once(s, id) && KeysMatch(s.tracker) && s.phase.Bridging? && Key(id).Some?
    requires ObserveClient(s.tracker, line).None?
    ensures Once(OnClientLine(s, line, sent, reached), id)
  {
    hide Sum;
    PendingAfterClient(s.tracker, line, id);
    Tally(s.log, Read(line), s.gen, id);
  }

  lemma ReadThenDeliver(log: seq<Event>, gen: nat, index: nat, line: Line, id: Id)
    ensures var more := log + [Read(line)] + [Deliver(gen, index, line)];
      && Sum(more, Reads(id)) == Sum(log, Reads(id)) + (if RequestLine(line, id) then 1 else 0)
      && Sum(more, AnswersOf(id)) == Sum(log, AnswersOf(id))
      && Sum(more, AnswersFrom(gen, id)) == Sum(log, AnswersFrom(gen, id))
      && (Sum(more, Gives(gen, id)) > Sum(log, Gives(gen, id)) ==> RequestLine(line, id))
  {
    hide Sum;
    Tally(log, Read(line), gen, id);
    Tally(log + [Read(line)], Deliver(gen, index, line), gen, id);
  }

  /** A line that may ask (`asked`) and was perhaps delivered. */
  lemma CarryOnce(s: State, t: State, id: Id, asked: bool)
    requires Once(s, id) && s.phase.Bridging? && t.gen == s.gen && (t.phase.Bridging? || t.phase.Broken?)
    requires asked ==> Sum(s.log, Reads(id)) == 0
    requires PendingIn(t.tracker, id) <==> PendingIn(s.tracker, id) || asked
    requires Sum(t.log, Reads(id)) == Sum(s.log, Reads(id)) + (if asked then 1 else 0)
    requires Sum(t.log, AnswersOf(id)) == Sum(s.log, AnswersOf(id))
    requires Sum(t.log, AnswersFrom(s.gen, id)) == Sum(s.log, AnswersFrom(s.gen, id))
    requires Sum(t.log, Gives(s.gen, id)) > Sum(s.log, Gives(s.gen, id)) ==> asked
    ensures Once(t, id)
  {
  }

  lemma ClientLineOnce(s: State, line: Line, sent: bool, reached: bool, id: Id)
    requires Once(s, id) && KeysMatch(s.tracker) && s.phase.Bridging? && Key(id).Some?
    requires ObserveClient(s.tracker, line).Some?
    requires RequestLine(line, id) ==> Sum(s.log, Reads(id)) == 0
    ensures Once(OnClientLine(s, line, sent, reached), id)
  {
    hide Sum;
    var t := OnClientLine(s, line, sent, reached);
    PendingAfterClient(s.tracker, line, id);
    if sent || reached {
      ReadThenDeliver(s.log, s.gen, s.taken, line, id);
      assert t.log == s.log + [Read(line)] + [Deliver(s.gen, s.taken, line)];
    } else {
      Tally(s.log, Read(line), s.gen, id);
      assert t.log == s.log + [Read(line)];
    }
    CarryOnce(s, t, id, RequestLine(line, id));
  }

  lemma EnqueueOnce(s: State, line: Line, id: Id)
    requires Once(s, id) && KeysMatch(s.tracker) && s.phase.Reconnecting? && Key(id).Some?
    requires RequestLine(line, id) ==> Sum(s.log, Reads(id)) == 0
    ensures Once(Enqueue(s, line), id)
  {
    hide Sum;
    PendingAfterClient(s.tracker, line, id);
    Tally(s.log, Read(line), s.gen, id);
  }

  lemma FailOnce(s: State, written: bool, through: set<Id>, id: Id)
    requires Once(s, id) && KeysMatch(s.tracker) && s.phase.Broken? && s.queue == [] && Key(id).Some?
    ensures Once(FailAll(s, written, through), id)
  {
    hide Sum;
    Tally(s.log, Failed(s.tracker.clientPending.Values), s.gen, id);
    Tally(s.log, Failed(s.tracker.clientPending.Values * through), s.gen, id);
    assert id in s.tracker.clientPending.Values <==> PendingIn(s.tracker, id);
  }

  /** A generation gets nothing before its handshake. */
  lemma {:induction false} NothingBefore(log: seq<Event>, gen: nat, id: Id)
    requires Sequenced(log) && (Greeted(log).Some? ==> Greeted(log).value < gen)
    ensures Sum(log, Gives(gen, id)) == 0
  {
    if log != [] {
      var before := log[..|log| - 1];
      NothingBefore(before, gen, id);
      Tally(before, log[|log| - 1], gen, id);
      assert before + [log[|log| - 1]] == log;
    }
  }

  lemma {:induction false} FlushTally(log: seq<Event>, gen: nat, queue: seq<Queued>, id: Id)
    ensures var l := log + Deliveries(gen, queue);
      && Sum(l, Reads(id)) == Sum(log, Reads(id)) && Sum(l, AnswersOf(id)) == Sum(log, AnswersOf(id))
      && (Sum(l, Gives(gen, id)) > Sum(log, Gives(gen, id)) ==>
            exists i :: 0 <= i < |queue| && RequestLine(queue[i].line, id))
  {
    if queue == [] {
      assert log + Deliveries(gen, queue) == log;
    } else {
      var n := |queue| - 1;
      var e := Deliver(gen, queue[n].index, queue[n].line);
      FlushTally(log, gen, queue[..n], id);
      Tally(log + Deliveries(gen, queue[..n]), e, gen, id);
      MoreDeliveries(log, gen, queue);
      if i :| 0 <= i < n && RequestLine(queue[..n][i].line, id) { assert RequestLine(queue[i].line, id); }
    }
  }

  /** What a fresh generation receives is queued, and hence pending. */
  lemma GreetOnce(s: State, t: State, id: Id)
    requires Once(s, id) && s.phase.Reconnecting? && t.phase.Bridging? && t.tracker == s.tracker
    requires Sum(t.log, Reads(id)) == Sum(s.log, Reads(id)) && Sum(t.log, AnswersOf(id)) == Sum(s.log, AnswersOf(id))
    requires Sum(t.log, Gives(t.gen, id)) > 0 ==> exists i :: 0 <= i < |s.queue| && RequestLine(s.queue[i].line, id)
    ensures Once(t, id)
  {
  }

  lemma ReconnectedOnce(s: State, id: Id)
    requires Once(s, id) && Ordered(s) && s.phase.Reconnecting? && Key(id).Some?
    ensures Once(OnReconnected(s, |s.queue|), id)
  {
    hide Sum;
    var gen, t := s.latest + 1, OnReconnected(s, |s.queue|);
    var log := s.log + [Handshake(gen)];
    NothingBefore(s.log, gen, id);
    Tally(s.log, Handshake(gen), gen, id);
    FlushTally(log, gen, s.queue, id);
    assert s.queue[..|s.queue|] == s.queue;
    assert t.log == log + Deliveries(gen, s.queue);
    GreetOnce(s, t, id);
  }

  /** Events that are neither read, delivered nor answered change no count. */
  lemma NeutralOnce(s: State, t: State, e: Event, id: Id)
    requires Once(s, id) && t.tracker == s.tracker && t.queue == s.queue && t.gen == s.gen
    requires (e.Consumed? || e.Pinged?) && (t.log == s.log || t.log == s.log + [e])
    requires t.phase.Bridging? || t.phase.Broken? ==> s.phase.Bridging? || s.phase.Broken?
    requires t.phase.Reconnecting? ==> s.phase.Reconnecting?
    ensures Once(t, id)
  {
    hide Sum;
    Tally(s.log, e, s.gen, id);
  }

  lemma ReadOnce(s: State, a: Action, id: Id)
    requires Once(s, id) && KeysMatch(s.tracker) && Key(id).Some? && a.ClientLine? && FreshId(s, a)
    ensures Once(Next(s, a), id)
  {
    if s.phase.Reconnecting? {
      EnqueueOnce(s, a.line, id);
    } else if s.phase.Bridging? && ConsumesPing(s, a.line) {
      NeutralOnce(s, Next(s, a), Consumed(a.line), id);
    } else if s.phase.Bridging? && ObserveClient(s.tracker, a.line).None? {
      DroppedOnce(s, a.line, a.sent, a.reached, id);
    } else if s.phase.Bridging? {
      ClientLineOnce(s, a.line, a.sent, a.reached, id);
    }
  }

  lemma QuietOnce(s: State, a: Action, id: Id)
    requires Once(s, id) && Smooth(s, a)
    requires !a.DaemonLine? && !a.ClientLine? && !a.FailPending? && !a.Reconnected?
    ensures Once(Next(s, a), id)
  {
    NeutralOnce(s, Next(s, a), Pinged(PingId(s.pid, s.sequence + 1)), id);
  }

  lemma StepOnce(s: State, a: Action, id: Id)
    requires Once(s, id) && KeysMatch(s.tracker) && Ordered(s) && Key(id).Some?
    requires Smooth(s, a) && Disciplined(s, a) && FreshId(s, a)
    ensures Once(Next(s, a), id)
  {
    hide Once, Sum;
    match a
    case DaemonLine(line, written) => if s.phase.Bridging? { DaemonLineOnce(s, line, written, id); }
    case ClientLine(line, sent, reached) => ReadOnce(s, a, id);
    case FailPending(written, through) => if s.phase.Broken? { FailOnce(s, written, through, id); }
    case Reconnected(_) => if s.phase.Reconnecting? { ReconnectedOnce(s, id); }
    case _ => QuietOnce(s, a, id);
  }

  /** Distinct client ids and disciplined daemons. */
  ghost predicate DisciplinedRun(pid: nat, acts: seq<Action>) {
    forall i :: 0 <= i < |acts| ==> DisciplinedStep(After(Init(pid), acts[..i]), acts[i])
  }

  ghost predicate DisciplinedStep(s: State, a: Action) { Disciplined(s, a) && FreshId(s, a) }

  /** Smooth and disciplined from here on. */
  ghost predicate GoodFrom(s: State, acts: seq<Action>) {
    forall i :: 0 <= i < |acts| ==>
      Smooth(After(s, acts[..i]), acts[i]) && DisciplinedStep(After(s, acts[..i]), acts[i])
  }

  ghost predicate Sound(s: State) { KeysMatch(s.tracker) && Ordered(s) }

  lemma StepKeys(s: State, a: Action)
    requires KeysMatch(s.tracker)
    ensures KeysMatch(Next(s, a).tracker)
  {
    if a.DaemonLine? { DaemonKeeps(s.tracker, s.gen, a.line); }
    if a.ClientLine? { ClientKeeps(s.tracker, a.line); }
  }

  lemma StepSound(s: State, a: Action, id: Id)
    requires Sound(s) && Once(s, id) && Key(id).Some? && Smooth(s, a) && DisciplinedStep(s, a)
    ensures Sound(Next(s, a)) && Once(Next(s, a), id)
  {
    StepKeys(s, a);
    StepOrdered(s, a);
    StepOnce(s, a, id);
  }

  lemma GoodPrefix(s: State, acts: seq<Action>)
    requires GoodFrom(s, acts) && acts != []
    ensures var n := |acts| - 1;
      && GoodFrom(s, acts[..n])
      && Smooth(After(s, acts[..n]), acts[n]) && DisciplinedStep(After(s, acts[..n]), acts[n])
  {
    var n := |acts| - 1;
    forall i | 0 <= i < n
      ensures Smooth(After(s, acts[..n][..i]), acts[..n][i]) && DisciplinedStep(After(s, acts[..n][..i]), acts[..n][i])
    {
      assert acts[..n][..i] == acts[..i];
    }
  }

  lemma {:induction false} OnceFrom(s: State, acts: seq<Action>, id: Id)
    requires Sound(s) && Once(s, id) && Key(id).Some? && GoodFrom(s, acts)
    ensures Sound(After(s, acts)) && Once(After(s, acts), id)
  {
    if acts != [] {
      GoodPrefix(s, acts);
      OnceFrom(s, acts[..|acts| - 1], id);
      StepSound(After(s, acts[..|acts| - 1]), acts[|acts| - 1], id);
    }
  }

  lemma StartsSound(pid: nat, id: Id)
    requires Key(id).Some?
    ensures Sound(Init(pid)) && Once(Init(pid), id)
  {
    Append([], Handshake(0));
    Tally([], Handshake(0), 0, id);
    assert [] + [Handshake(0)] == Init(pid).log;
  }

  /** Every request id gets at most one answer on stdout, and none while it is pending. */
  lemma AtMostOneAnswer(pid: nat, acts: seq<Action>, id: Id)
    requires SmoothRun(pid, acts) && DisciplinedRun(pid, acts) && Key(id).Some?
    ensures Once(After(Init(pid), acts), id)
    ensures Sum(After(Init(pid), acts).log, AnswersOf(id)) <= 1
  {
    StartsSound(pid, id);
    assert GoodFrom(Init(pid), acts);
    OnceFrom(Init(pid), acts, id);
  }

  // ---- Smoothness is needed ----

  ghost predicate Reachable(s: State) { exists acts :: DisciplinedRun(0, acts) && After(Init(0), acts) == s }

  ghost predicate Closed(P: State -> bool) {
    forall s, a {:trigger Next(s, a)} :: P(s) && DisciplinedStep(s, a) ==> P(Next(s, a))
  }

  lemma ReachableClosed()
    ensures Closed(s => Reachable(s)) && Reachable(Init(0))
  {
    forall s, a | Reachable(s) && DisciplinedStep(s, a) ensures Reachable(Next(s, a)) {
      var acts :| DisciplinedRun(0, acts) && After(Init(0), acts) == s;
      var more := acts + [a];
      assert more[..|acts|] == acts;
      forall i | 0 <= i < |more| ensures DisciplinedStep(After(Init(0), more[..i]), more[i]) {
        assert i < |acts| ==> more[..i] == acts[..i];
      }
      assert After(Init(0), more) == Next(s, a);
    }
    var none: seq<Action> := [];
    assert DisciplinedRun(0, none) && After(Init(0), none) == Init(0);
  }

  /** A request is queued while the daemon is away. */
  lemma QueuedDuringOutage(P: State -> bool) returns (s: State)
    requires Closed(P) && P(Init(0))
    ensures var ask := Object(true, false, Some(Null), 0);
      P(s) && s == Init(0).(phase := Reconnecting, ended := true, tracker := Tracker(map["null" := Null], {}),
                            taken := 1, queue := [Queued(0, ask)], log := [Handshake(0)] + [Read(ask)])
  {
    var ask := Object(true, false, Some(Null), 0);
    s := Next(Init(0), DaemonGone);
    s := Next(s, FailPending(true, {}));
    assert s == Init(0).(phase := Reconnecting, ended := true);
    forall id | RequestLine(ask, id) ensures Sum(s.log, Reads(id)) == 0 {
      Tally([], Handshake(0), 1, id);
      assert [] + [Handshake(0)] == s.log;
    }
    assert DisciplinedStep(s, ClientLine(ask, true, true));
    s := Next(s, ClientLine(ask, true, true));
  }

  /** The reconnect fails, the request is answered with an error, and the next reconnect flushes it. */
  lemma FlushedAfterFailure(P: State -> bool, s: State) returns (t: State)
    requires Closed(P) && P(s) && s.phase.Reconnecting? && s.tracker == Tracker(map["null" := Null], {})
    requires |s.queue| == 1 && s.latest == 0
    ensures P(t) && t.phase.Bridging? && t.gen == 1 && !t.ended
    ensures t.log == s.log + [Failed({Null})] + [Handshake(1)] + [Deliver(1, s.queue[0].index, s.queue[0].line)]
  {
    var m := map["null" := Null];
    assert m["null"] in m.Values && m.Values == {Null};
    t := Next(s, ReconnectFailed);
    t := Next(t, DaemonGone);
    t := Next(t, FailPending(true, {}));
    assert t.log == s.log + [Failed({Null})] && t.queue == s.queue && t.phase.Reconnecting? && t.latest == 0;
    t := Next(t, Reconnected(1));
    assert s.queue[..1] == s.queue;
    assert Deliveries(1, s.queue) == [Deliver(1, s.queue[0].index, s.queue[0].line)];
  }

  lemma OutageLog(ask: Line, log: seq<Event>)
    requires ask == Object(true, false, Some(Null), 0)
    requires log == [Handshake(0)] + [Read(ask)] + [Failed({Null})] + [Handshake(1)] + [Deliver(1, 0, ask)]
    ensures Sum(log, AnswersOf(Null)) == 1 && Sum(log, Gives(1, Null)) == 1 && Sum(log, AnswersFrom(1, Null)) == 0
  {
    var l: seq<Event> := [];
    Tally(l, Handshake(0), 1, Null);
    l := l + [Handshake(0)];
    Tally(l, Read(ask), 1, Null);
    l := l + [Read(ask)];
    Tally(l, Failed({Null}), 1, Null);
    l := l + [Failed({Null})];
    Tally(l, Handshake(1), 1, Null);
    l := l + [Handshake(1)];
    Tally(l, Deliver(1, 0, ask), 1, Null);
    assert l + [Deliver(1, 0, ask)] == log;
  }

  lemma Replies(P: State -> bool, s: State, reply: Line) returns (t: State)
    requires Closed(P) && P(s) && s.phase.Bridging? && !s.ended && s.gen == 1
    requires reply == Object(false, true, Some(Null), 0) && Received(s, Null)
    ensures P(t) && Sum(t.log, AnswersOf(Null)) == Sum(s.log, AnswersOf(Null)) + 1
  {
    hide Sum;
    Tally(s.log, FromDaemon(1, reply), 1, Null);
    assert DisciplinedStep(s, DaemonLine(reply, true));
    t := Next(s, DaemonLine(reply, true));
  }

  /** The hypothesis of smoothness cannot be dropped: after a failed reconnect a queued request is answered with an
      error, flushed after the next reconnect all the same, and answered again by the daemon. */
  lemma FailedReconnectAnswersTwice()
    ensures exists s :: Reachable(s) && Sum(s.log, AnswersOf(Null)) == 2
  {
    ReachableClosed();
    var P: State -> bool := s => Reachable(s);
    var ask, reply := Object(true, false, Some(Null), 0), Object(false, true, Some(Null), 0);
    var s := QueuedDuringOutage(P);
    s := FlushedAfterFailure(P, s);
    OutageLog(ask, s.log);
    s := Replies(P, s, reply);
  }
}
