/**
 The reconnecting JSON-RPC proxy of src/ipc/proxy.rs: one client, one proxy and a sequence of daemon
 generations.  Lines are atomic and already classified; what the sockets, the clock and the parent
 process do is the proxy's input.  The log records everything that crossed the proxy.
 */
module Proxy {
  import opened Numbers
  import opened Options

  /** A JSON-RPC id; `Other` stands for the JSON values that are no id (booleans, arrays, objects). */
  datatype Id = Str(text: string) | Num(text: string) | Null | Other(raw: nat)

  function Key(id: Id): Option<string> {
    match id
    case Str(s) => Some("s:" + s)
    case Num(n) => Some("n:" + n)
    case Null => Some("null")
    case Other(_) => None
  }

  /** The tracker's keys do not confuse ids. */
  lemma KeysDistinguish(a: Id, b: Id)
    requires Key(a) == Key(b) != None
    ensures a == b
  {
    var k := Key(a).value;
    assert k == "null" || k[2..] == a.text;
    assert k == "null" || k[2..] == b.text;
    assert "null"[0] == 'n' && "null"[1] == 'u';
  }

  /** A line: not a JSON object, or an object with or without a `method`, a `result`/`error`, an `id`. */
  datatype Line = Opaque(raw: nat) | Object(method_: bool, outcome: bool, id: Option<Id>, body: nat)

  function LineKey(line: Line): Option<string> {
    if line.Object? && line.id.Some? then Key(line.id.value) else None
  }

  predicate Asks(line: Line, k: string) { line.Object? && line.method_ && LineKey(line) == Some(k) }

  predicate Answers(line: Line, k: string) { line.Object? && !line.method_ && line.outcome && LineKey(line) == Some(k) }

  // ---- The tracker ----

  datatype Tracker = Tracker(clientPending: map<string, Id>, serverPending: set<string>)

  predicate HasInFlight(t: Tracker) { t.clientPending != map[] || t.serverPending != {} }

  /** `None` for a line the tracker says to drop. */
  function ObserveClient(t: Tracker, line: Line): Option<Tracker> {
    if line.Opaque? || LineKey(line).None? then Some(t)
    else if line.method_ then Some(t.(clientPending := t.clientPending[LineKey(line).value := line.id.value]))
    else if !line.outcome then Some(t)
    else if LineKey(line).value in t.serverPending then
      Some(t.(serverPending := t.serverPending - {LineKey(line).value}))
    else None
  }

  function ObserveDaemon(t: Tracker, line: Line): Tracker {
    if line.Opaque? || LineKey(line).None? then t
    else if line.method_ then t.(serverPending := t.serverPending + {LineKey(line).value})
    else if line.outcome then t.(clientPending := t.clientPending - {LineKey(line).value})
    else t
  }

  // ---- The liveness ping ----

  function PingId(pid: nat, sequence: nat): string {
    "__gatemini_proxy_ping:" + Decimal(pid) + ":" + Decimal(sequence)
  }

  predicate RespondsTo(line: Line, id: string) { line.Object? && line.outcome && line.id == Some(Str(id)) }

  // ---- The proxy ----

  datatype Outcome = StdinClosed | ParentDied | ClientUnresponsive | StdoutClosed

  /** `Broken`: the bridge has returned because the daemon went away, and the pending requests are still to be
      failed. */
  datatype Phase = Bridging | Broken | Reconnecting | Exited(outcome: Outcome)

  datatype Event =
    | Handshake(gen: nat)
    | Read(line: Line)                        // a client line handed to the tracker
    | Consumed(line: Line)                    // a reply to a ping of the proxy's own
    | Deliver(gen: nat, index: nat, line: Line)   // the index-th client line, written to a daemon
    | FromDaemon(gen: nat, line: Line)        // a daemon line, forwarded to the client
    | Failed(ids: set<Id>)                    // one retryable error per id, written to the client
    | Pinged(id: string)

  datatype Queued = Queued(index: nat, line: Line)

  datatype State = State(
    pid: nat, phase: Phase, tracker: Tracker,
    pending: Option<string>, ignored: set<string>, sequence: nat,   // the bridge's ping state
    queue: seq<Queued>,
    gen: nat, latest: nat,        // the generation behind the current stream, and the last one connected to
    ended: bool,                  // the current stream was read to its end
    taken: nat,                   // client lines read so far
    log: seq<Event>
  )

  datatype Action =
    | DaemonLine(line: Line, written: bool)
    | DaemonGone
    | ClientLine(line: Line, sent: bool, reached: bool)
    | ClientGone
    | ParentGone
    | IdleFired(sent: bool, timedOut: bool)
    | PingExpired
    | FailPending(written: bool, through: set<Id>)
    | Reconnected(flushed: nat)
    | ReconnectFailed

  function Exit(s: State, o: Outcome): State { s.(phase := Exited(o)) }

  /** A fresh bridge forgets its ping state. */
  function Bridge(s: State): State { s.(phase := Bridging, pending := None, ignored := {}, sequence := 0) }

  function OnDaemonLine(s: State, line: Line, written: bool): State {
    var t := s.(tracker := ObserveDaemon(s.tracker, line));
    if written then t.(log := s.log + [FromDaemon(s.gen, line)]) else Exit(t, StdinClosed)
  }

  predicate ConsumesPing(s: State, line: Line) {
    (s.pending.Some? && RespondsTo(line, s.pending.value))
    || (line.Object? && line.outcome && line.id.Some? && line.id.value.Str? && line.id.value.text in s.ignored)
  }

  /** Dropping a reply to one of the proxy's pings, the outstanding one first. */
  function ConsumePing(s: State, line: Line): State
    requires ConsumesPing(s, line)
  {
    var t := s.(taken := s.taken + 1, log := s.log + [Consumed(line)]);
    if s.pending.Some? && RespondsTo(line, s.pending.value) then t.(pending := None)
    else t.(ignored := s.ignored - {line.id.value.text})
  }

  /** Any other client line: the outstanding ping may be answered late, and the tracker decides about the line. */
  function OnClientLine(s: State, line: Line, sent: bool, reached: bool): State {
    var t := s.(taken := s.taken + 1, log := s.log + [Read(line)], pending := None,
                ignored := if s.pending.Some? then s.ignored + {s.pending.value} else s.ignored);
    match ObserveClient(s.tracker, line)
    case None => t
    case Some(tracker) =>
      var u := t.(tracker := tracker);
      if sent then u.(log := t.log + [Deliver(s.gen, s.taken, line)])
      else u.(phase := Broken, log := if reached then t.log + [Deliver(s.gen, s.taken, line)] else t.log)
  }

  /** A client line while no daemon is connected. */
  function Enqueue(s: State, line: Line): State {
    var t := s.(taken := s.taken + 1, log := s.log + [Read(line)]);
    match ObserveClient(s.tracker, line)
    case None => t
    case Some(tracker) => t.(tracker := tracker, queue := s.queue + [Queued(s.taken, line)])
  }

  function OnIdle(s: State, sent: bool, timedOut: bool): State {
    if HasInFlight(s.tracker) then s
    else
      var id := PingId(s.pid, s.sequence + 1);
      var t := s.(sequence := s.sequence + 1);
      if sent then t.(pending := Some(id), log := s.log + [Pinged(id)])
      else Exit(t, if timedOut then ClientUnresponsive else StdinClosed)
  }

  /** Answering every pending request with an error; a broken stdout lets only some through. */
  function FailAll(s: State, written: bool, through: set<Id>): State {
    var ids := s.tracker.clientPending.Values;
    var t := s.(tracker := Tracker(map[], {}));
    if s.tracker.clientPending == map[] then t.(phase := Reconnecting)
    else if written then t.(phase := Reconnecting, log := s.log + [Failed(ids)])
    else Exit(t.(log := s.log + [Failed(ids * through)]), StdoutClosed)
  }

  function Deliveries(gen: nat, queue: seq<Queued>): (r: seq<Event>)
    ensures |r| == |queue|
    ensures forall i :: 0 <= i < |r| ==> r[i] == Deliver(gen, queue[i].index, queue[i].line)
  {
    seq(|queue|, i requires 0 <= i < |queue| => Deliver(gen, queue[i].index, queue[i].line))
  }

  /** A new generation has replayed the handshake, and `flushed` lines of the queue reach it.
      If that is not all, the proxy falls back to the stream it had, keeping the queue. */
  function OnReconnected(s: State, flushed: nat): State {
    var n := if flushed <= |s.queue| then flushed else |s.queue|;
    var t := s.(latest := s.latest + 1,
                log := s.log + [Handshake(s.latest + 1)] + Deliveries(s.latest + 1, s.queue[..n]));
    Bridge(if n == |s.queue| then t.(gen := s.latest + 1, ended := false, queue := []) else t)
  }

  /** One arm of a `select!`, or one step of the outer loop.  An arm whose guard is off does not fire, and a stream
      read to its end has no more lines; after a failed write it may have. */
  function Next(s: State, a: Action): State {
    match a
    case DaemonLine(line, written) => if s.phase.Bridging? && !s.ended then OnDaemonLine(s, line, written) else s
    case DaemonGone => if s.phase.Bridging? then s.(phase := Broken, ended := true) else s
    case ClientLine(line, sent, reached) =>
      if s.phase.Bridging? then
        if ConsumesPing(s, line) then ConsumePing(s, line) else OnClientLine(s, line, sent, reached)
      else if s.phase.Reconnecting? then Enqueue(s, line)
      else s
    case ClientGone => if s.phase.Bridging? || s.phase.Reconnecting? then Exit(s, StdinClosed) else s
    case ParentGone => if s.phase.Bridging? || s.phase.Reconnecting? then Exit(s, ParentDied) else s
    case IdleFired(sent, timedOut) =>
      if s.phase.Bridging? && s.pending.None? then OnIdle(s, sent, timedOut) else s
    case PingExpired => if s.phase.Bridging? && s.pending.Some? then Exit(s, ClientUnresponsive) else s
    case FailPending(written, through) => if s.phase.Broken? then FailAll(s, written, through) else s
    case Reconnected(flushed) => if s.phase.Reconnecting? then OnReconnected(s, flushed) else s
    case ReconnectFailed => if s.phase.Reconnecting? then Bridge(s) else s
  }

  /** The bridge right after the first handshake. */
  function Init(pid: nat): State {
    State(pid, Bridging, Tracker(map[], {}), None, {}, 0, [], 0, 0, false, 0, [Handshake(0)])
  }

  /** A whole run. */
  function After(s: State, acts: seq<Action>): State {
    if acts == [] then s else Next(After(s, acts[..|acts| - 1]), acts[|acts| - 1])
  }

  lemma {:induction false} AfterBoth(s: State, acts: seq<Action>, more: seq<Action>)
    ensures After(After(s, acts), more) == After(s, acts + more)
  {
    if more == [] {
      assert acts + more == acts;
    } else {
      AfterBoth(s, acts, more[..|more| - 1]);
      assert (acts + more)[..|acts + more| - 1] == acts + more[..|more| - 1];
    }
  }
}
