/**
 How one daemon generation hands over to the next: src/ipc/upgrade.rs, src/ipc/socket.rs and src/ipc/daemon.rs over
 an abstract directory.  Binding, promotion, repair and clean-up are atomic steps, and pids are not reused.
 */
module Handover {
  import opened Numbers

  type Pid = nat

  datatype Kind = Sock | Mark | Meta

  /** The files beside the public socket, by what they are for.  `Staged` ones carry the pid of the upgrade command. */
  datatype Name = Public(kind: Kind) | Staged(pid: Pid, kind: Kind) | Drain(pid: Pid, kind: Kind)

  datatype Role = Active | Waiting | Draining

  /** A socket somebody listens on, a PID file, or generation metadata. */
  datatype File = Socket(owner: Pid) | PidFile(owner: Pid) | Info(owner: Pid, role: Role)

  type Files = map<Name, File>

  /** `up` is the upgrade command that staged the daemon. */
  datatype Phase = Staging(up: Pid) | Serving | Stopping(drain: bool)

  datatype State = State(files: Files, live: map<Pid, Phase>, used: set<Pid>)

  const INITIAL := State(map[], map[], {})

  // ---- File operations ----

  function PublicNames(): set<Name> { {Public(Sock), Public(Mark), Public(Meta)} }

  function StagedNames(up: Pid): set<Name> { {Staged(up, Sock), Staged(up, Mark), Staged(up, Meta)} }

  function DrainNames(p: Pid): set<Name> { {Drain(p, Sock), Drain(p, Mark), Drain(p, Meta)} }

  function Rename(f: Files, from: Name, to: Name): Files
    requires from in f
  {
    (f - {from})[to := f[from]]
  }

  function Claim(f: Files, p: Pid): Files {
    f[Public(Sock) := Socket(p)][Public(Mark) := PidFile(p)][Public(Meta) := Info(p, Active)]
  }

  predicate Names(f: Files, p: Pid) { Public(Mark) in f && f[Public(Mark)] == PidFile(p) }

  /** `cleanup_owned_generation_files`. */
  function CleanUpOwned(f: Files, p: Pid): Files { if Names(f, p) then f - PublicNames() else f }

  // ---- Promotion ----

  datatype Outcome = Busy | FirstFails | SecondFails | Promoted

  function DrainInfo(f: Files, prev: Pid): File {
    Info(if Public(Meta) in f then f[Public(Meta)].owner else prev, Draining)
  }

  function MovedAside(f: Files, prev: Pid): Files
    requires Public(Sock) in f
  {
    Rename(f, Public(Sock), Drain(prev, Sock))
      [Drain(prev, Mark) := PidFile(prev)][Drain(prev, Meta) := DrainInfo(f, prev)]
  }

  /** The previous generation's files move to their drain names, where others of its pid make room. */
  function MoveAside(f: Files, prev: Pid): Files
    requires Public(Sock) in f
  {
    MovedAside(f - DrainNames(prev), prev)
  }

  function RollBack(f: Files, prev: Pid): Files
    requires Drain(prev, Sock) in f
  {
    Rename(f, Drain(prev, Sock), Public(Sock))[Public(Mark) := PidFile(prev)]
  }

  function TakeOver(f: Files, p: Pid, up: Pid): Files
    requires Staged(up, Sock) in f
  {
    Rename(f, Staged(up, Sock), Public(Sock))[Public(Mark) := PidFile(p)][Public(Meta) := Info(p, Active)]
    - {Staged(up, Mark), Staged(up, Meta)}
  }

  /** The directory after an attempt at promotion, and whether it succeeded. */
  function Promotion(f: Files, alive: bool, p: Pid, up: Pid, prev: Pid, outcome: Outcome): (Files, bool) {
    if outcome.Busy? || !Names(f, prev) || !alive then (f, false)
    else if outcome.FirstFails? || Public(Sock) !in f then (f - DrainNames(prev), false)
    else
      var g := MoveAside(f, prev);
      if outcome.SecondFails? || Staged(up, Sock) !in g then (RollBack(g, prev), false)
      else (TakeOver(g, p, up), true)
  }

  // ---- Steps ----

  datatype Action =
    | Bind(p: Pid)
    | Stage(p: Pid, up: Pid)
    | StagedFails(p: Pid)                             // initialization fails before promotion
    | Promote(p: Pid, prev: Pid, outcome: Outcome)
    | Leave(p: Pid, drain: bool)                      // the accept loop ends; `drain` if by SIGUSR2
    | Repair(p: Pid)                                  // the accept loop's repair tick
    | Exit(p: Pid)
    | Crash(p: Pid)
    | CleanUpStale                                    // the stop, restart and upgrade commands
    | ProxyCleanUp                                    // the proxy, before it reconnects
    | Discover                                        // drops the drain files of dead generations

  predicate Enabled(s: State, a: Action) {
    match a
    case Bind(p) => p !in s.used
    case Stage(p, up) => p !in s.used && up !in s.used && p != up
    case StagedFails(p) => p in s.live && s.live[p].Staging?
    case Promote(p, prev, _) => p in s.live && s.live[p].Staging? && prev != p
    case Leave(p, _) => p in s.live && s.live[p].Serving?
    case Repair(p) => p in s.live && s.live[p].Serving?
    case Exit(p) => p in s.live && s.live[p].Stopping?
    case Crash(p) => p in s.live
    case _ => true
  }

  /** Somebody accepts connections on the public socket. */
  predicate Connectable(s: State) { Public(Sock) in s.files && s.files[Public(Sock)].owner in s.live }

  predicate MarkAlive(s: State) { Public(Mark) in s.files && s.files[Public(Mark)].owner in s.live }

  function BindNext(s: State, p: Pid): State {
    var t := s.(used := s.used + {p});
    if Connectable(s) then t else t.(files := Claim(s.files, p), live := s.live[p := Serving])
  }

  function StageNext(s: State, p: Pid, up: Pid): State {
    var files := s.files[Staged(up, Sock) := Socket(p)][Staged(up, Mark) := PidFile(p)];
    s.(files := files[Staged(up, Meta) := Info(p, Waiting)],
       live := s.live[p := Staging(up)], used := s.used + {p, up})
  }

  function PromoteNext(s: State, p: Pid, prev: Pid, outcome: Outcome): State
    requires p in s.live && s.live[p].Staging?
  {
    var (files, done) := Promotion(s.files, prev in s.live, p, s.live[p].up, prev, outcome);
    s.(files := files, live := if done then s.live[p := Serving] else s.live - {p})
  }

  function RepairNext(s: State, p: Pid): State {
    if Public(Sock) !in s.files then s.(files := Claim(s.files, p))
    else if Public(Mark) !in s.files then
      s.(files := s.files[Public(Mark) := PidFile(p)][Public(Meta) := Info(p, Active)])
    else s
  }

  function ExitNext(s: State, p: Pid): State
    requires p in s.live && s.live[p].Stopping?
  {
    s.(files := if s.live[p].drain then s.files - DrainNames(p) else CleanUpOwned(s.files, p), live := s.live - {p})
  }

  function Dead(s: State): set<Name> {
    set n | n in s.files && n.Drain? && Drain(n.pid, Mark) in s.files && n.pid !in s.live
  }

  function Next(s: State, a: Action): State
    requires Enabled(s, a)
  {
    match a
    case Bind(p) => BindNext(s, p)
    case Stage(p, up) => StageNext(s, p, up)
    case StagedFails(p) =>
      var up := s.live[p].up;
      var owned := Staged(up, Mark) in s.files && s.files[Staged(up, Mark)] == PidFile(p);
      s.(files := if owned then s.files - StagedNames(up) else s.files,
         live := s.live - {p})
    case Promote(p, prev, outcome) => PromoteNext(s, p, prev, outcome)
    case Leave(p, drain) => s.(live := s.live[p := Stopping(drain)])
    case Repair(p) => RepairNext(s, p)
    case Exit(p) => ExitNext(s, p)
    case Crash(p) => s.(live := s.live - {p})
    case CleanUpStale => if MarkAlive(s) then s else s.(files := s.files - PublicNames())
    case ProxyCleanUp =>
      if Public(Sock) !in s.files || MarkAlive(s) then s else s.(files := s.files - {Public(Sock), Public(Mark)})
    case Discover => s.(files := s.files - Dead(s))
  }

  ghost predicate Run(r: seq<State>, acts: seq<Action>) {
    && |r| == |acts| + 1 && r[0] == INITIAL
    && forall i :: 0 <= i < |acts| ==> Enabled(r[i], acts[i]) && r[i + 1] == Next(r[i], acts[i])
  }

  // ---- Paths ----

  function Extension(k: Kind): string {
    match k
    case Sock => ".sock"
    case Mark => ".pid"
    case Meta => ".info.json"
  }

  /** The path of a file, beside a public socket `stem`.sock. */
  function Path(stem: string, n: Name): string {
    match n
    case Public(k) => stem + Extension(k)
    case Staged(p, k) => stem + (".upgrade-" + (Decimal(p) + Extension(k)))
    case Drain(p, k) => stem + (".drain-" + (Decimal(p) + Extension(k)))
  }

  /** Digits end where the extension begins. */
  lemma SplitDigits(a: string, k: Kind, b: string, j: Kind)
    requires Digits(a) && Digits(b) && a + Extension(k) == b + Extension(j)
    ensures a == b && k == j
  {
    var s := a + Extension(k);
    assert s[|a|] == '.' && s[|b|] == '.';
    assert forall i :: 0 <= i < |a| ==> s[i] == a[i];
    assert forall i :: 0 <= i < |b| ==> s[i] == b[i];
    assert s[|a|..] == Extension(k) && s[|b|..] == Extension(j);
    assert s[..|a|] == a && s[..|b|] == b;
    assert Extension(k)[1] == Extension(j)[1];
  }

  function Suffix(n: Name): string {
    match n
    case Public(k) => Extension(k)
    case Staged(p, k) => ".upgrade-" + (Decimal(p) + Extension(k))
    case Drain(p, k) => ".drain-" + (Decimal(p) + Extension(k))
  }

  lemma SameSuffix(m: Name, n: Name)
    requires Suffix(m) == Suffix(n)
    ensures m == n
  {
    assert Suffix(m)[1] == Suffix(n)[1];
    if m.Public? {
      assert n.Public?;
    } else {
      var tag := if m.Staged? then ".upgrade-" else ".drain-";
      assert Suffix(m)[|tag|..] == Decimal(m.pid) + Extension(m.kind);
      assert Suffix(n)[|tag|..] == Decimal(n.pid) + Extension(n.kind);
      DecimalDigits(m.pid);
      DecimalDigits(n.pid);
      SplitDigits(Decimal(m.pid), m.kind, Decimal(n.pid), n.kind);
      DecimalInjective(m.pid, n.pid);
    }
  }

  /** No two files share a path, whatever the name of the socket. */
  lemma PathsDistinct(stem: string, m: Name, n: Name)
    requires Path(stem, m) == Path(stem, n)
    ensures m == n
  {
    assert Path(stem, m)[|stem|..] == Suffix(m) && Path(stem, n)[|stem|..] == Suffix(n);
    SameSuffix(m, n);
  }
}
