/** What becomes of every line: nothing is lost on the way from either side. */
module ProxyForward {
  import opened Numbers
  import opened Options
  import opened Proxy
  import opened ProxyOrder

  // ---- What the tracker drops ----

  /** A client line is dropped exactly if it answers an id the daemon is not waiting for. */
  lemma DropIff(t: Tracker, line: Line)
    ensures ObserveClient(t, line).None? <==> exists k :: Answers(line, k) && k !in t.serverPending
  {
    if ObserveClient(t, line).None? { assert Answers(line, LineKey(line).value); }
  }

  // ---- Lines in and out ----

  /** The client lines that arrived while somebody was listening to the client. */
  function Arrived(pid: nat, acts: seq<Action>): seq<Line> {
    if acts == [] then []
    else
      var a, s := acts[|acts| - 1], After(Init(pid), acts[..|acts| - 1]);
      Arrived(pid, acts[..|acts| - 1])
      + if a.ClientLine? && (s.phase.Bridging? || s.phase.Reconnecting?) then [a.line] else []
  }

  /** The daemon lines that came out of a stream and could be written to the client, with their generation. */
  function Came(pid: nat, acts: seq<Action>): seq<(nat, Line)> {
    if acts == [] then []
    else
      var a, s := acts[|acts| - 1], After(Init(pid), acts[..|acts| - 1]);
      Came(pid, acts[..|acts| - 1])
      + if a.DaemonLine? && a.written && s.phase.Bridging? && !s.ended then [(s.gen, a.line)] else []
  }

  /** The daemon lines written to the client. */
  function Spoken(log: seq<Event>): seq<(nat, Line)> {
    if log == [] then []
    else
      var e := log[|log| - 1];
      Spoken(log[..|log| - 1]) + if e.FromDaemon? then [(e.gen, e.line)] else []
  }

  lemma SpokenMore(log: seq<Event>, e: Event)
    ensures Spoken(log + [e]) == Spoken(log) + if e.FromDaemon? then [(e.gen, e.line)] else []
  {
    assert (log + [e])[..|log|] == log;
  }

  lemma {:induction false} SpokenFlush(log: seq<Event>, gen: nat, queue: seq<Queued>)
    ensures Spoken(log + Deliveries(gen, queue)) == Spoken(log)
  {
    if queue == [] {
      assert log + Deliveries(gen, queue) == log;
    } else {
      var n := |queue| - 1;
      SpokenFlush(log, gen, queue[..n]);
      MoreDeliveries(log, gen, queue);
      SpokenMore(log + Deliveries(gen, queue[..n]), Deliver(gen, queue[n].index, queue[n].line));
    }
  }

  /** What one step adds to the log, apart from a flush. */
  function Added(s: State, a: Action): seq<Event> {
    match a
    case DaemonLine(line, written) =>
      if s.phase.Bridging? && !s.ended && written then [FromDaemon(s.gen, line)] else []
    case ClientLine(line, sent, reached) =>
      if s.phase.Bridging? then
        if ConsumesPing(s, line) then [Consumed(line)]
        else if ObserveClient(s.tracker, line).Some? && (sent || reached) then
          [Read(line)] + [Deliver(s.gen, s.taken, line)]
        else [Read(line)]
      else if s.phase.Reconnecting? then [Read(line)]
      else []
    case IdleFired(sent, _) =>
      if s.phase.Bridging? && s.pending.None? && !HasInFlight(s.tracker) && sent then
        [Pinged(PingId(s.pid, s.sequence + 1))]
      else []
    case FailPending(written, through) =>
      var ids := s.tracker.clientPending.Values;
      if s.phase.Broken? && s.tracker.clientPending != map[] then [Failed(if written then ids else ids * through)]
      else []
    case _ => []
  }

  lemma StepAdds(s: State, a: Action)
    requires !(a.Reconnected? && s.phase.Reconnecting?)
    ensures Next(s, a).log == s.log + Added(s, a)
  {
    if a.ClientLine? && s.phase.Bridging? { BridgeAdds(s, a); }
  }

  lemma BridgeAdds(s: State, a: Action)
    requires a.ClientLine? && s.phase.Bridging?
    ensures Next(s, a).log == s.log + Added(s, a)
  {
    var l := s.log + [Read(a.line)];
    assert l + [Deliver(s.gen, s.taken, a.line)] == s.log + ([Read(a.line)] + [Deliver(s.gen, s.taken, a.line)]);
  }

  lemma Two(log: seq<Event>, e: Event, f: Event)
    ensures log + ([e] + [f]) == log + [e] + [f]
  {
  }

  lemma SpokenAdds(s: State, a: Action)
    ensures Spoken(s.log + Added(s, a))
         == Spoken(s.log)
            + if a.DaemonLine? && a.written && s.phase.Bridging? && !s.ended then [(s.gen, a.line)] else []
  {
    hide Spoken;
    var es := Added(s, a);
    if |es| == 1 {
      assert es == [es[0]];
      SpokenMore(s.log, es[0]);
    } else if |es| == 2 {
      Two(s.log, es[0], es[1]);
      SpokenMore(s.log, es[0]);
      SpokenMore(s.log + [es[0]], es[1]);
    } else {
      assert s.log + es == s.log;
    }
  }

  lemma TakenAdds(s: State, a: Action)
    ensures Taken(s.log + Added(s, a))
         == Taken(s.log)
            + if a.ClientLine? && (s.phase.Bridging? || s.phase.Reconnecting?) then [a.line] else []
  {
    hide Taken;
    var es := Added(s, a);
    if |es| == 1 {
      assert es == [es[0]];
      Append(s.log, es[0]);
    } else if |es| == 2 {
      Two(s.log, es[0], es[1]);
      Append(s.log, es[0]);
      Append(s.log + [es[0]], es[1]);
    } else {
      assert s.log + es == s.log;
    }
  }

  /** A flush hands over queued lines and nothing else. */
  lemma FlushAdds(s: State, flushed: nat)
    ensures Spoken(OnReconnected(s, flushed).log) == Spoken(s.log)
    ensures Taken(OnReconnected(s, flushed).log) == Taken(s.log)
  {
    hide Spoken, Taken;
    var n := if flushed <= |s.queue| then flushed else |s.queue|;
    var head := s.log + [Handshake(s.latest + 1)];
    SpokenMore(s.log, Handshake(s.latest + 1));
    Append(s.log, Handshake(s.latest + 1));
    SpokenFlush(head, s.latest + 1, s.queue[..n]);
    AppendDeliveries(head, s.latest + 1, s.queue[..n]);
  }

  /** The lines one step reads from the client, and those it writes to it. */
  function ReadNow(s: State, a: Action): seq<Line> {
    if a.ClientLine? && (s.phase.Bridging? || s.phase.Reconnecting?) then [a.line] else []
  }

  function CameNow(s: State, a: Action): seq<(nat, Line)> {
    if a.DaemonLine? && a.written && s.phase.Bridging? && !s.ended then [(s.gen, a.line)] else []
  }

  lemma StepPasses(s: State, a: Action)
    ensures Taken(Next(s, a).log) == Taken(s.log) + ReadNow(s, a)
    ensures Spoken(Next(s, a).log) == Spoken(s.log) + CameNow(s, a)
  {
    hide Taken, Spoken, Added;
    if a.Reconnected? && s.phase.Reconnecting? {
      FlushAdds(s, a.flushed);
    } else {
      StepAdds(s, a);
      SpokenAdds(s, a);
      TakenAdds(s, a);
    }
  }

  lemma NothingYet(pid: nat)
    ensures Taken(Init(pid).log) == [] && Spoken(Init(pid).log) == []
  {
    assert Init(pid).log[..0] == [];
  }

  /** In every run, whatever fails: the client lines read are those that arrived, in order, and the daemon lines
      written to the client are those that came, each once and in order, notifications included. */
  lemma {:induction false} LinesPass(pid: nat, acts: seq<Action>)
    ensures Taken(After(Init(pid), acts).log) == Arrived(pid, acts)
    ensures Spoken(After(Init(pid), acts).log) == Came(pid, acts)
  {
    hide Taken, Spoken, Next;
    if acts == [] {
      NothingYet(pid);
    } else {
      LinesPass(pid, acts[..|acts| - 1]);
      StepPasses(After(Init(pid), acts[..|acts| - 1]), acts[|acts| - 1]);
    }
  }

  // ---- What is awaited, read off the log ----

  /** The ids of requests the current daemon has sent and not been given a reply to. */
  function Awaited(log: seq<Event>): set<string> {
    if log == [] then {}
    else
      var before, e := Awaited(log[..|log| - 1]), log[|log| - 1];
      if e.Handshake? then {}
      else if e.FromDaemon? && e.line.Object? && e.line.method_ && LineKey(e.line).Some? then
        before + {LineKey(e.line).value}
      else if e.Deliver? && e.line.Object? && !e.line.method_ && e.line.outcome && LineKey(e.line).Some? then
        before - {LineKey(e.line).value}
      else before
  }

  /** The pings of the current bridge that have not been answered. */
  function PingsOpen(log: seq<Event>): set<string> {
    if log == [] then {}
    else
      var before, e := PingsOpen(log[..|log| - 1]), log[|log| - 1];
      if e.Handshake? then {}
      else if e.Pinged? then before + {e.id}
      else if e.Consumed? && e.line.Object? && e.line.id.Some? && e.line.id.value.Str? then
        before - {e.line.id.value.text}
      else before
  }

  lemma AwaitedMore(log: seq<Event>, e: Event)
    ensures Awaited(log + [e])
         == if e.Handshake? then {}
            else if e.FromDaemon? && e.line.Object? && e.line.method_ && LineKey(e.line).Some? then
              Awaited(log) + {LineKey(e.line).value}
            else if e.Deliver? && e.line.Object? && !e.line.method_ && e.line.outcome && LineKey(e.line).Some? then
              Awaited(log) - {LineKey(e.line).value}
            else Awaited(log)
  {
    assert (log + [e])[..|log|] == log;
  }

  lemma PingsMore(log: seq<Event>, e: Event)
    ensures PingsOpen(log + [e])
         == if e.Handshake? then {}
            else if e.Pinged? then PingsOpen(log) + {e.id}
            else if e.Consumed? && e.line.Object? && e.line.id.Some? && e.line.id.value.Str? then
              PingsOpen(log) - {e.line.id.value.text}
            else PingsOpen(log)
  {
    assert (log + [e])[..|log|] == log;
  }

  function Outstanding(s: State): set<string> {
    s.ignored + if s.pending.Some? then {s.pending.value} else {}
  }

  ghost predicate PingsNumbered(s: State) {
    && (s.pending.Some? ==> s.pending.value !in s.ignored)
    && forall x :: x in Outstanding(s) ==> exists k: nat :: k <= s.sequence && x == PingId(s.pid, k)
  }

  lemma PingIdInjective(pid: nat, k: nat, l: nat)
    requires PingId(pid, k) == PingId(pid, l)
    ensures k == l
  {
    var head := "__gatemini_proxy_ping:" + Decimal(pid) + ":";
    assert PingId(pid, k)[|head|..] == Decimal(k) && PingId(pid, l)[|head|..] == Decimal(l);
    DecimalInjective(k, l);
  }

  /** What the bridge remembers is what the log says. */
  ghost predicate Remembers(s: State) {
    && (s.phase.Reconnecting? ==> s.tracker.serverPending == {})
    && (s.phase.Bridging? ==>
          s.tracker.serverPending == Awaited(s.log) && Outstanding(s) == PingsOpen(s.log) && PingsNumbered(s))
  }

  lemma {:induction false} FlushForgets(log: seq<Event>, gen: nat, queue: seq<Queued>)
    requires Awaited(log) == {} && PingsOpen(log) == {}
    ensures var l := log + Deliveries(gen, queue); Awaited(l) == {} && PingsOpen(l) == {}
  {
    if queue == [] {
      assert log + Deliveries(gen, queue) == log;
    } else {
      var n := |queue| - 1;
      var l, e := log + Deliveries(gen, queue[..n]), Deliver(gen, queue[n].index, queue[n].line);
      FlushForgets(log, gen, queue[..n]);
      MoreDeliveries(log, gen, queue);
      AwaitedMore(l, e);
      PingsMore(l, e);
    }
  }

  lemma ReconnectedRemembers(s: State, flushed: nat)
    requires flushed >= |s.queue| && Remembers(s) && s.phase.Reconnecting?
    ensures Remembers(OnReconnected(s, flushed))
  {
    hide Awaited, PingsOpen;
    var head := s.log + [Handshake(s.latest + 1)];
    AwaitedMore(s.log, Handshake(s.latest + 1));
    PingsMore(s.log, Handshake(s.latest + 1));
    FlushForgets(head, s.latest + 1, s.queue);
    assert s.queue[..|s.queue|] == s.queue;
  }

  lemma DaemonLineRemembers(s: State, line: Line, written: bool)
    requires Remembers(s) && s.phase.Bridging?
    ensures Remembers(OnDaemonLine(s, line, written))
  {
    hide Awaited, PingsOpen;
    AwaitedMore(s.log, FromDaemon(s.gen, line));
    PingsMore(s.log, FromDaemon(s.gen, line));
  }

  lemma ConsumeRemembers(s: State, line: Line)
    requires Remembers(s) && s.phase.Bridging? && ConsumesPing(s, line)
    ensures Remembers(ConsumePing(s, line))
  {
    hide Awaited, PingsOpen;
    AwaitedMore(s.log, Consumed(line));
    PingsMore(s.log, Consumed(line));
    var t := ConsumePing(s, line);
    assert Outstanding(t) == Outstanding(s) - {line.id.value.text};
  }

  lemma ClientLineRemembers(s: State, line: Line, sent: bool, reached: bool)
    requires Remembers(s) && s.phase.Bridging?
    ensures Remembers(OnClientLine(s, line, sent, reached))
  {
    hide Awaited, PingsOpen;
    AwaitedMore(s.log, Read(line));
    PingsMore(s.log, Read(line));
    AwaitedMore(s.log + [Read(line)], Deliver(s.gen, s.taken, line));
    PingsMore(s.log + [Read(line)], Deliver(s.gen, s.taken, line));
    var t := OnClientLine(s, line, sent, reached);
    assert Outstanding(t) == Outstanding(s);
  }

  lemma IdleRemembers(s: State, sent: bool, timedOut: bool)
    requires Remembers(s) && s.phase.Bridging? && s.pending.None?
    ensures Remembers(OnIdle(s, sent, timedOut))
  {
    hide Awaited, PingsOpen;
    var id := PingId(s.pid, s.sequence + 1);
    AwaitedMore(s.log, Pinged(id));
    PingsMore(s.log, Pinged(id));
    NextPingIsNew(s);
    assert Outstanding(s.(pending := Some(id))) == Outstanding(s) + {id};
  }

  lemma NextPingIsNew(s: State)
    requires PingsNumbered(s)
    ensures PingId(s.pid, s.sequence + 1) !in Outstanding(s)
  {
    var id := PingId(s.pid, s.sequence + 1);
    if id in Outstanding(s) {
      var k: nat :| k <= s.sequence && id == PingId(s.pid, k);
      PingIdInjective(s.pid, k, s.sequence + 1);
    }
  }

  lemma StepRemembers(s: State, a: Action)
    requires Remembers(s) && Smooth(s, a)
    ensures Remembers(Next(s, a))
  {
    hide Awaited, PingsOpen, PingsNumbered;
    match a
    case DaemonLine(line, written) => if s.phase.Bridging? && !s.ended { DaemonLineRemembers(s, line, written); }
    case ClientLine(line, sent, reached) =>
      if s.phase.Bridging? {
        if ConsumesPing(s, line) { ConsumeRemembers(s, line); } else { ClientLineRemembers(s, line, sent, reached); }
      }
    case IdleFired(sent, timedOut) => if s.phase.Bridging? && s.pending.None? { IdleRemembers(s, sent, timedOut); }
    case Reconnected(flushed) => if s.phase.Reconnecting? { ReconnectedRemembers(s, flushed); }
    case _ =>
  }

  lemma {:induction false} AlwaysRemembers(pid: nat, acts: seq<Action>)
    requires SmoothRun(pid, acts)
    ensures Remembers(After(Init(pid), acts))
  {
    if acts == [] {
      assert Init(pid).log[..0] == [];
    } else {
      SmoothPrefix(pid, acts);
      AlwaysRemembers(pid, acts[..|acts| - 1]);
      StepRemembers(After(Init(pid), acts[..|acts| - 1]), acts[|acts| - 1]);
    }
  }

  // ---- The fate of a client line ----

  /** A reply to the string id p. */
  predicate RepliesTo(line: Line, p: string) { line.Object? && line.outcome && line.id == Some(Str(p)) }

  lemma ConsumesIff(s: State, line: Line)
    ensures ConsumesPing(s, line) <==> exists p :: p in Outstanding(s) && RepliesTo(line, p)
  {
    if ConsumesPing(s, line) { assert line.id.value.text in Outstanding(s) && RepliesTo(line, line.id.value.text); }
  }

  /** In runs whose reconnects succeed, the log decides what becomes of a client line on a live bridge: a reply to an
      open ping is swallowed, a reply the current daemon does not await is dropped, and everything else is written to
      the daemon, if the write works. */
  lemma FateOnBridge(pid: nat, acts: seq<Action>, line: Line, sent: bool, reached: bool)
    requires SmoothRun(pid, acts) && After(Init(pid), acts).phase.Bridging?
    ensures var s := After(Init(pid), acts); var t := Next(s, ClientLine(line, sent, reached));
      t.log == s.log + if exists p :: p in PingsOpen(s.log) && RepliesTo(line, p) then [Consumed(line)]
                       else if exists k :: Answers(line, k) && k !in Awaited(s.log) then [Read(line)]
                       else if sent || reached then [Read(line), Deliver(s.gen, s.taken, line)]
                       else [Read(line)]
  {
    var s := After(Init(pid), acts);
    AlwaysRemembers(pid, acts);
    ConsumesIff(s, line);
    DropIff(s.tracker, line);
    StepAdds(s, ClientLine(line, sent, reached));
    assert [Read(line)] + [Deliver(s.gen, s.taken, line)] == [Read(line), Deliver(s.gen, s.taken, line)];
  }

  /** While no daemon is there, everything but replies is queued. */
  lemma FateWithoutDaemon(pid: nat, acts: seq<Action>, line: Line, sent: bool, reached: bool)
    requires SmoothRun(pid, acts) && After(Init(pid), acts).phase.Reconnecting?
    ensures var s := After(Init(pid), acts); var t := Next(s, ClientLine(line, sent, reached));
      t.queue == s.queue + if exists k :: Answers(line, k) then [] else [Queued(s.taken, line)]
  {
    AlwaysRemembers(pid, acts);
    DropIff(After(Init(pid), acts).tracker, line);
  }

  // ---- Nothing is forgotten ----

  lemma AddsDelivered(s: State, a: Action)
    ensures Delivered(s.log) <= Delivered(s.log + Added(s, a))
  {
    hide Delivered;
    var es := Added(s, a);
    if |es| == 1 {
      assert es == [es[0]];
      Append(s.log, es[0]);
    } else if |es| == 2 {
      Two(s.log, es[0], es[1]);
      Append(s.log, es[0]);
      Append(s.log + [es[0]], es[1]);
    } else {
      assert s.log + es == s.log;
    }
  }

  /** A queued line stays queued until it is delivered, and a delivered one stays delivered. */
  lemma StepKeepsLines(s: State, a: Action)
    requires Ordered(s) && Smooth(s, a)
    ensures Delivered(s.log) + s.queue <= Delivered(Next(s, a).log) + Next(s, a).queue
  {
    hide Delivered, Taken, Sequenced, Greeted;
    if a.Reconnected? && s.phase.Reconnecting? {
      FlushedLog(s);
      assert s.queue[..|s.queue|] == s.queue;
    } else {
      StepAdds(s, a);
      AddsDelivered(s, a);
      if s.queue != [] { assert Delivered(Next(s, a).log) == Delivered(s.log) by { QueuedQuiet(s, a); } }
    }
  }

  /** With lines queued nothing is delivered but by the flush. */
  lemma QueuedQuiet(s: State, a: Action)
    requires Ordered(s) && s.queue != [] && !(a.Reconnected? && s.phase.Reconnecting?)
    ensures Delivered(Next(s, a).log) == Delivered(s.log)
  {
    hide Delivered;
    StepAdds(s, a);
    var es := Added(s, a);
    if es == [] { assert s.log + es == s.log; } else {
      assert es == [es[0]];
      Append(s.log, es[0]);
    }
  }

  lemma {:induction false} LinesKept(pid: nat, acts: seq<Action>, m: nat)
    requires SmoothRun(pid, acts) && m <= |acts|
    ensures var s, f := After(Init(pid), acts[..m]), After(Init(pid), acts);
      Delivered(s.log) + s.queue <= Delivered(f.log) + f.queue
  {
    if m == |acts| {
      assert acts[..m] == acts;
    } else {
      var n := |acts| - 1;
      SmoothPrefix(pid, acts);
      LinesKept(pid, acts[..n], m);
      assert acts[..n][..m] == acts[..m];
      DeliveryInOrder(pid, acts[..n]);
      StepKeepsLines(After(Init(pid), acts[..n]), acts[n]);
    }
  }

  lemma PrefixOfSmooth(pid: nat, acts: seq<Action>, m: nat)
    requires SmoothRun(pid, acts) && m <= |acts|
    ensures SmoothRun(pid, acts[..m])
  {
    forall i | 0 <= i < m ensures Smooth(After(Init(pid), acts[..m][..i]), acts[..m][i]) {
      assert acts[..m][..i] == acts[..i];
    }
  }

  /** What the step that reads a line does with it. */
  lemma LineTaken(s: State, a: Action)
    requires a.ClientLine? && (s.phase.Bridging? || s.phase.Reconnecting?) && forall k :: !Answers(a.line, k)
    requires s.phase.Bridging? ==> !ConsumesPing(s, a.line) && (a.sent || a.reached)
    ensures Queued(s.taken, a.line) in Delivered(Next(s, a).log) + Next(s, a).queue
  {
    hide Delivered;
    DropIff(s.tracker, a.line);
    if s.phase.Bridging? {
      StepAdds(s, a);
      Two(s.log, Read(a.line), Deliver(s.gen, s.taken, a.line));
      Append(s.log + [Read(a.line)], Deliver(s.gen, s.taken, a.line));
      var d := Delivered(Next(s, a).log);
      assert d[|d| - 1] == Queued(s.taken, a.line);
    } else {
      var q := Next(s, a).queue;
      assert q[|q| - 1] == Queued(s.taken, a.line);
    }
  }

  /** In runs whose reconnects succeed, every line read that is no reply is delivered or waits in the queue, ever after
      and under its own number, unless writing it failed or it was a ping's answer. */
  lemma NothingForgotten(pid: nat, acts: seq<Action>, m: nat)
    requires SmoothRun(pid, acts) && m < |acts| && acts[m].ClientLine? && forall k :: !Answers(acts[m].line, k)
    requires var s := After(Init(pid), acts[..m]);
      || s.phase.Reconnecting?
      || (s.phase.Bridging? && (acts[m].sent || acts[m].reached)
          && forall p :: p in PingsOpen(s.log) ==> !RepliesTo(acts[m].line, p))
    ensures var s, f := After(Init(pid), acts[..m]), After(Init(pid), acts);
      Queued(s.taken, acts[m].line) in Delivered(f.log) + f.queue
  {
    hide Delivered, PingsOpen;
    var s, f := After(Init(pid), acts[..m]), After(Init(pid), acts);
    PrefixOfSmooth(pid, acts, m);
    AlwaysRemembers(pid, acts[..m]);
    ConsumesIff(s, acts[m].line);
    LineTaken(s, acts[m]);
    assert acts[..m + 1][..m] == acts[..m] && After(Init(pid), acts[..m + 1]) == Next(s, acts[m]);
    LinesKept(pid, acts, m + 1);
    var t := Next(s, acts[m]);
    PrefixHas(Delivered(t.log) + t.queue, Delivered(f.log) + f.queue, Queued(s.taken, acts[m].line));
  }

  lemma PrefixHas(q: seq<Queued>, r: seq<Queued>, x: Queued)
    requires q <= r && x in q
    ensures x in r
  {
    var i :| 0 <= i < |q| && q[i] == x;
    assert r[i] == x;
  }

  // ---- The end of a stream, and of the client ----

  lemma StaysEnded(s: State, a: Action)
    requires s.ended && !a.Reconnected?
    ensures Next(s, a).ended && Spoken(Next(s, a).log) == Spoken(s.log)
  {
    hide Spoken;
    StepAdds(s, a);
    SpokenAdds(s, a);
  }

  /** A stream read to its end says nothing more: until a reconnect succeeds the client hears nothing from a daemon. */
  lemma {:induction false} EndedIsSilent(s: State, acts: seq<Action>)
    requires s.phase.Bridging?
    requires forall i :: 0 <= i < |acts| ==> !acts[i].Reconnected?
    ensures var t := After(Next(s, DaemonGone), acts); Spoken(t.log) == Spoken(s.log) && t.ended
  {
    hide Spoken;
    if acts != [] {
      var n := |acts| - 1;
      EndedIsSilent(s, acts[..n]);
      StaysEnded(After(Next(s, DaemonGone), acts[..n]), acts[n]);
    }
  }

  /** The bridge after an answer to its outstanding ping. */
  lemma ProbeAnswered(s: State, id: string, line: Line, sent: bool, reached: bool)
    requires s.phase.Bridging? && s.pending == Some(id) && RepliesTo(line, id)
    ensures var t := Next(s, ClientLine(line, sent, reached));
      t.log == s.log + [Consumed(line)] && t.phase.Bridging? && t.pending.None?
  {
    assert RespondsTo(line, id);
  }

  /** What the probe leaves: a ping under an id not in use, which an answer settles and the time-out does not
      forgive. */
  ghost predicate Probes(s: State, t: State) {
    exists id :: id !in PingsOpen(s.log) && t.log == s.log + [Pinged(id)] && Settles(t, id)
  }

  ghost predicate Settles(t: State, id: string) {
    && Next(t, PingExpired).phase == Exited(ClientUnresponsive)
    && forall line, sent, reached | RepliesTo(line, id) ::
         var u := Next(t, ClientLine(line, sent, reached));
         u.log == t.log + [Consumed(line)] && u.phase.Bridging? && u.pending.None?
  }

  lemma PendingSettles(t: State, id: string)
    requires t.phase.Bridging? && t.pending == Some(id)
    ensures Settles(t, id)
  {
    forall line, sent, reached | RepliesTo(line, id)
      ensures var u := Next(t, ClientLine(line, sent, reached));
        u.log == t.log + [Consumed(line)] && u.phase.Bridging? && u.pending.None?
    {
      ProbeAnswered(t, id, line, sent, reached);
    }
  }

  lemma ProbeStep(s: State, timedOut: bool)
    requires Remembers(s) && s.phase.Bridging? && s.pending.None? && !HasInFlight(s.tracker)
    ensures Probes(s, Next(s, IdleFired(true, timedOut)))
  {
    hide Settles, PingsOpen, PingId;
    var t, id := Next(s, IdleFired(true, timedOut)), PingId(s.pid, s.sequence + 1);
    NextPingIsNew(s);
    PendingSettles(t, id);
    assert t.log == s.log + [Pinged(id)];
  }

  /** An idle client is pinged, under an id not in use; if it answers, the bridge goes on without telling the daemon,
      and if it does not in time, the proxy gives it up. */
  lemma ProbeSettles(pid: nat, acts: seq<Action>, timedOut: bool)
    requires SmoothRun(pid, acts)
    requires var s := After(Init(pid), acts);
      s.phase.Bridging? && s.pending.None? && s.tracker.clientPending == map[] && Awaited(s.log) == {}
    ensures var s := After(Init(pid), acts); Probes(s, Next(s, IdleFired(true, timedOut)))
  {
    hide After, Next, Probes, Awaited;
    AlwaysRemembers(pid, acts);
    ProbeStep(After(Init(pid), acts), timedOut);
  }

  lemma BusyStep(s: State, sent: bool, timedOut: bool)
    requires Remembers(s) && s.phase.Bridging? && (s.tracker.clientPending != map[] || Awaited(s.log) != {})
    ensures Next(s, IdleFired(sent, timedOut)) == s
  {
    hide Awaited, PingsOpen;
  }

  /** A client that owes the daemon a reply, or waits for one itself, is not pinged. */
  lemma BusyIsNotProbed(pid: nat, acts: seq<Action>, sent: bool, timedOut: bool)
    requires SmoothRun(pid, acts) && After(Init(pid), acts).phase.Bridging?
    requires var s := After(Init(pid), acts); s.tracker.clientPending != map[] || Awaited(s.log) != {}
    ensures Next(After(Init(pid), acts), IdleFired(sent, timedOut)) == After(Init(pid), acts)
  {
    hide After, Next, Awaited;
    AlwaysRemembers(pid, acts);
    BusyStep(After(Init(pid), acts), sent, timedOut);
  }

  /** The proxy ends with its client or its parent, whatever it is waiting for, and stays ended. */
  lemma {:induction false} EndsWithClient(s: State, a: Action, acts: seq<Action>)
    requires (s.phase.Bridging? || s.phase.Reconnecting?) && (a.ClientGone? || a.ParentGone?)
    ensures var t := After(Next(s, a), acts);
      t.phase == Exited(if a.ClientGone? then StdinClosed else ParentDied) && t.log == s.log
  {
    if acts != [] { EndsWithClient(s, a, acts[..|acts| - 1]); }
  }
}
