/** What binding, exits, repairs and clean-ups achieve. */
module HandoverEffects {
  import opened Handover
  import opened HandoverSafety

  // ---- Staged files ----

  /** Of a running generation only what it staged and has not yet published lies under a staged name, and a staged
      daemon has all three files there. */
  ghost predicate StagedOwned(s: State) {
    && (forall n :: n in s.files && n.Staged? && s.files[n].owner in s.live ==>
          s.live[s.files[n].owner] == Staging(n.pid))
    && (forall n :: n in s.files && n.Staged? ==> n.pid in s.used)
    && (forall p :: p in s.live && s.live[p].Staging? ==>
          && Staged(s.live[p].up, Mark) in s.files && s.files[Staged(s.live[p].up, Mark)] == PidFile(p)
          && Staged(s.live[p].up, Meta) in s.files && s.files[Staged(s.live[p].up, Meta)] == Info(p, Waiting))
  }

  /** Steps that touch no staged file and stage nothing. */
  lemma OthersOwned(s: State, t: State)
    requires StagedOwned(s) && s.used <= t.used
    requires forall n: Name :: n.Staged? ==>
               (n in t.files <==> n in s.files) && (n in s.files ==> t.files[n] == s.files[n])
    requires forall q :: q in t.live ==> if q in s.live then t.live[q] == s.live[q] else !t.live[q].Staging?
    requires forall q :: q in t.live && q !in s.live ==> q !in s.used
    requires forall n :: n in s.files ==> s.files[n].owner in s.used
    ensures StagedOwned(t)
  {
  }

  lemma StageOwned(s: State, p: Pid, up: Pid)
    requires StagedOwned(s) && UsedOk(s) && p !in s.used && up !in s.used && p != up
    ensures StagedOwned(StageNext(s, p, up))
  {
  }

  lemma LeaveOwned(s: State, p: Pid, drain: bool)
    requires StagedOwned(s) && p in s.live && s.live[p].Serving?
    ensures StagedOwned(s.(live := s.live[p := Stopping(drain)]))
  {
    forall n | n in s.files && n.Staged? && s.files[n].owner in s.live ensures s.files[n].owner != p {
      assert s.live[s.files[n].owner] == Staging(n.pid);
    }
  }

  lemma StagedFailsOwned(s: State, p: Pid)
    requires StagedOwned(s) && StagesOk(s) && p in s.live && s.live[p].Staging?
    ensures StagedOwned(Next(s, StagedFails(p)))
  {
  }

  lemma PromotedOwned(s: State, p: Pid, prev: Pid)
    requires StagedOwned(s) && StagesOk(s) && p in s.live && s.live[p].Staging? && Publishes(s.files, prev)
    requires Staged(s.live[p].up, Sock) in MoveAside(s.files, prev)
    ensures StagedOwned(AfterPromotion(s, p, prev))
  {
    var t := AfterPromotion(s, p, prev);
    forall n: Name | n.Staged? && n in t.files
      ensures n.pid != s.live[p].up && n in s.files && t.files[n] == s.files[n]
    {
      OwnStagedGone(s, p, prev, n);
    }
    OtherStagedStay(s, p, prev);
    RestOwned(s, t, p);
  }

  /** The new generation's staged files are gone, and what is left was there. */
  lemma OwnStagedGone(s: State, p: Pid, prev: Pid, n: Name)
    requires p in s.live && s.live[p].Staging? && Publishes(s.files, prev)
    requires Staged(s.live[p].up, Sock) in MoveAside(s.files, prev)
    requires n.Staged? && n in AfterPromotion(s, p, prev).files
    ensures n.pid != s.live[p].up && n in s.files && AfterPromotion(s, p, prev).files[n] == s.files[n]
  {
    Kinds(n.kind);
    assert n == Staged(n.pid, n.kind);
  }

  lemma OtherStagedStay(s: State, p: Pid, prev: Pid)
    requires p in s.live && s.live[p].Staging? && Publishes(s.files, prev)
    requires Staged(s.live[p].up, Sock) in MoveAside(s.files, prev)
    ensures var t := AfterPromotion(s, p, prev);
      forall n: Name :: n.Staged? && n.pid != s.live[p].up && n in s.files ==>
                          n in t.files && t.files[n] == s.files[n]
  {
  }

  lemma RestOwned(s: State, t: State, p: Pid)
    requires StagedOwned(s) && StagesOk(s) && p in s.live && s.live[p].Staging?
    requires t.live == s.live[p := Serving] && t.used == s.used
    requires forall n: Name :: n.Staged? && n in t.files
               ==> n.pid != s.live[p].up && n in s.files && t.files[n] == s.files[n]
    requires forall n: Name :: n.Staged? && n.pid != s.live[p].up && n in s.files
               ==> n in t.files && t.files[n] == s.files[n]
    ensures StagedOwned(t)
  {
    forall n: Name | n.Staged? && n in t.files && s.files[n].owner in s.live ensures s.files[n].owner != p {
      assert s.live[s.files[n].owner] == Staging(n.pid);
    }
  }

  lemma PromoteOwned(s: State, p: Pid, prev: Pid, outcome: Outcome)
    requires StagedOwned(s) && Inv(s) && p in s.live && s.live[p].Staging? && prev != p
    ensures StagedOwned(PromoteNext(s, p, prev, outcome))
  {
    var t := PromoteNext(s, p, prev, outcome);
    if p in t.live {
      NamedIsPublished(s, prev);
      PromotedFiles(s, p, prev);
      PromotedOwned(s, p, prev);
    } else {
      if Names(s.files, prev) { NamedIsPublished(s, prev); }
      RefusedStaged(s, p, prev, outcome);
      OthersOwned(s, t);
    }
  }

  lemma RefusedStaged(s: State, p: Pid, prev: Pid, outcome: Outcome)
    requires p in s.live && s.live[p].Staging? && (Names(s.files, prev) ==> Publishes(s.files, prev))
    requires p !in PromoteNext(s, p, prev, outcome).live
    ensures var f := PromoteNext(s, p, prev, outcome).files; forall n: Name :: n.Staged? ==>
              (n in f <==> n in s.files) && (n in s.files ==> f[n] == s.files[n])
  {
  }

  lemma StepOwned(s: State, a: Action)
    requires StagedOwned(s) && Inv(s) && Enabled(s, a)
    ensures StagedOwned(Next(s, a))
  {
    if a.Stage? { StageOwned(s, a.p, a.up); }
    else if a.Leave? { LeaveOwned(s, a.p, a.drain); }
    else if a.StagedFails? { StagedFailsOwned(s, a.p); }
    else if a.Promote? { PromoteOwned(s, a.p, a.prev, a.outcome); }
    else { OthersOwned(s, Next(s, a)); }
  }

  lemma {:induction false} AlwaysOwned(r: seq<State>, acts: seq<Action>, i: nat)
    requires Run(r, acts) && i < |r|
    ensures StagedOwned(r[i]) && Inv(r[i])
  {
    Always(r, acts, i);
    if i > 0 {
      AlwaysOwned(r, acts, i - 1);
      StepOwned(r[i - 1], acts[i - 1]);
    }
  }

  // ---- Exits ----

  lemma Kinds(k: Kind)
    ensures k == Sock || k == Mark || k == Meta
  {
  }

  lemma PublicOwner(f: Files, g: Pid, k: Kind)
    requires Publishes(f, g) && Public(k) in f
    ensures f[Public(k)].owner == g && Public(k) in PublicNames()
  {
    Kinds(k);
  }

  /** The public files of a running generation are all public files. */
  lemma OwnedIsPublished(s: State, p: Pid, k: Kind)
    requires AgreeBut(s) && p in s.live && Public(k) in s.files && s.files[Public(k)].owner == p
    ensures Publishes(s.files, p) && Public(k) in PublicNames()
  {
    Kinds(k);
    if g :| Publishes(s.files, g) { PublicOwner(s.files, g, k); }
  }

  lemma NoneStaged(s: State, p: Pid, n: Name)
    requires StagedOwned(s) && p in s.live && s.live[p].Stopping? && n in s.files && s.files[n].owner == p
    ensures !n.Staged?
  {
  }

  lemma ExitOwns(s: State, p: Pid, n: Name)
    requires Inv(s) && StagedOwned(s) && p in s.live && s.live[p].Stopping?
    requires n in ExitNext(s, p).files && ExitNext(s, p).files[n].owner == p
    ensures if s.live[p].drain then n.Public? else n.Drain?
  {
    hide StagedOwned, StagesOk, InPlace, UsedOk;
    NoneStaged(s, p, n);
    if s.live[p].drain {
      if n.Drain? { DrainNamed(s, p, n); }
    } else if n.Public? {
      assert n == Public(n.kind);
      OwnedIsPublished(s, p, n.kind);
    }
  }

  lemma DrainNamed(s: State, p: Pid, n: Name)
    requires DrainsOwned(s.files) && n.Drain? && n in s.files && s.files[n].owner == p
    ensures n in DrainNames(p)
  {
    Kinds(n.kind);
    assert n == Drain(n.pid, n.kind);
  }

  /** A generation that exits leaves no public file of its own, or, if it drained, none but public ones: what it owned
      under its drain names is gone. */
  lemma ExitCleansUp(r: seq<State>, acts: seq<Action>, i: nat)
    requires Run(r, acts) && i < |acts| && acts[i].Exit?
    ensures var p, files := acts[i].p, r[i + 1].files;
      && p !in r[i + 1].live
      && (r[i].live[p] == Stopping(false) ==> forall n :: n in files && files[n].owner == p ==> n.Drain?)
      && (r[i].live[p] == Stopping(true) ==>
            && (forall k :: Drain(p, k) !in files)
            && forall n :: n in files && files[n].owner == p ==> n.Public?)
  {
    AlwaysOwned(r, acts, i);
    var p, files := acts[i].p, r[i + 1].files;
    forall n | n in files && files[n].owner == p ensures if r[i].live[p].drain then n.Public? else n.Drain? {
      ExitOwns(r[i], p, n);
    }
    if r[i].live[p].drain {
      forall k ensures Drain(p, k) !in files { assert Drain(p, k) in DrainNames(p) by { Kinds(k); } }
    }
  }

  /** A generation that had the public files and exits without draining leaves the place empty. */
  lemma ExitEmpties(r: seq<State>, acts: seq<Action>, i: nat)
    requires Run(r, acts) && i < |acts| && acts[i].Exit? && r[i].live[acts[i].p] == Stopping(false)
    requires exists k :: Public(k) in r[i].files && r[i].files[Public(k)].owner == acts[i].p
    ensures NoPublicFiles(r[i + 1].files)
  {
    AlwaysOwned(r, acts, i);
    var k :| Public(k) in r[i].files && r[i].files[Public(k)].owner == acts[i].p;
    OwnedIsPublished(r[i], acts[i].p, k);
  }

  /** A staged daemon that fails before it is promoted leaves none of its files. */
  lemma StagedFailsCleansUp(r: seq<State>, acts: seq<Action>, i: nat)
    requires Run(r, acts) && i < |acts| && acts[i].StagedFails?
    ensures forall n :: n in r[i + 1].files ==> r[i + 1].files[n].owner == acts[i].p ==> n.Public? || n.Drain?
    ensures forall k :: Staged(r[i].live[acts[i].p].up, k) !in r[i + 1].files
  {
    AlwaysOwned(r, acts, i);
    var s, p := r[i], acts[i].p;
    var up := s.live[p].up;
    forall k ensures Staged(up, k) !in r[i + 1].files { assert Staged(up, k) in StagedNames(up) by { Kinds(k); } }
    forall n | n in s.files && n.Staged? && s.files[n].owner == p ensures n in StagedNames(up) { StagedNamed(s, p, n); }
  }

  lemma StagedNamed(s: State, p: Pid, n: Name)
    requires StagedOwned(s) && p in s.live && s.live[p].Staging? && n in s.files && n.Staged? && s.files[n].owner == p
    ensures n in StagedNames(s.live[p].up)
  {
    Kinds(n.kind);
    assert n == Staged(n.pid, n.kind);
  }

  // ---- Binding and repairing ----

  /** A daemon that binds gets all public files exactly if nobody listens on the socket, a dead generation's leftovers
      notwithstanding; otherwise nothing changes. */
  lemma BindPublishes(r: seq<State>, acts: seq<Action>, i: nat)
    requires Run(r, acts) && i < |acts| && acts[i].Bind?
    ensures var p, s, t := acts[i].p, r[i], r[i + 1];
      if exists g :: g in s.live && Public(Sock) in s.files && s.files[Public(Sock)] == Socket(g)
      then t.files == s.files && t.live == s.live
      else Publishes(t.files, p) && t.live == s.live[p := Serving]
  {
    Always(r, acts, i);
    var s := r[i];
    if Connectable(s) {
      if g :| Publishes(s.files, g) { assert s.files[Public(Sock)] == Socket(g) && g in s.live; }
    }
  }

  /** After the repair tick of a serving generation the public files are complete: its own if the socket was missing,
      and otherwise those that were there. */
  lemma RepairCompletes(r: seq<State>, acts: seq<Action>, i: nat)
    requires Run(r, acts) && i < |acts| && acts[i].Repair?
    ensures if Public(Sock) in r[i].files then r[i + 1] == r[i] && exists g :: Publishes(r[i].files, g)
            else Publishes(r[i + 1].files, acts[i].p) && r[i + 1].live == r[i].live
  {
    Always(r, acts, i);
    if Public(Sock) in r[i].files {
      var g :| Publishes(r[i].files, g);
    }
  }

  /** In any directory, a missing PID file beside a socket is replaced, metadata and all, and the socket left alone. */
  lemma RepairNames(s: State, p: Pid)
    requires Public(Sock) in s.files && Public(Mark) !in s.files
    ensures var t := RepairNext(s, p);
      && Names(t.files, p) && Public(Meta) in t.files && t.files[Public(Meta)] == Info(p, Active)
      && Public(Sock) in t.files && t.files[Public(Sock)] == s.files[Public(Sock)] && t.live == s.live
  {
  }

  // ---- Cleaning up after the dead ----

  /** After the commands' clean-up there are no public files, unless the generation the PID file names is alive, and
      then nothing was touched. */
  lemma StaleIsGone(s: State)
    ensures var t := Next(s, CleanUpStale);
      if exists g :: g in s.live && Public(Mark) in s.files && s.files[Public(Mark)].owner == g then t == s
      else NoPublicFiles(t.files) && t.live == s.live
           && forall n: Name :: !n.Public? ==> (n in t.files <==> n in s.files)
  {
    if MarkAlive(s) { assert s.files[Public(Mark)].owner in s.live; }
  }

  /** After the proxy's clean-up there is no public socket, unless the generation the PID file names is alive. */
  lemma DeadSocketIsGone(s: State)
    ensures var t := Next(s, ProxyCleanUp);
      if exists g :: g in s.live && Public(Mark) in s.files && s.files[Public(Mark)].owner == g then t == s
      else Public(Sock) !in t.files && (Public(Sock) in s.files ==> Public(Mark) !in t.files)
           && forall n :: n != Public(Sock) && n != Public(Mark) ==> (n in t.files <==> n in s.files)
  {
    if MarkAlive(s) { assert s.files[Public(Mark)].owner in s.live; }
  }

  /** Discovery leaves drain files with a PID file to running generations only, and touches nothing else. */
  lemma DiscoveryDrops(s: State)
    ensures var t := Next(s, Discover);
      && (forall p, k :: Drain(p, k) in t.files && Drain(p, Mark) in t.files ==> p in t.live)
      && (forall p, k ::
            Drain(p, k) in s.files && Drain(p, Mark) in s.files && p !in s.live ==> Drain(p, k) !in t.files)
      && (forall n :: n in s.files && (!n.Drain? || n.pid in s.live) ==> n in t.files && t.files[n] == s.files[n])
      && t.live == s.live
  {
    var t := Next(s, Discover);
    forall p, k | Drain(p, k) in s.files && Drain(p, Mark) in s.files && p !in s.live ensures Drain(p, k) !in t.files {
      assert Drain(p, k) in Dead(s);
    }
    forall p, k | Drain(p, k) in t.files && Drain(p, Mark) in t.files ensures p in t.live {
      assert Drain(p, Mark) in s.files;
    }
  }

  /** After such an exit the next daemon to bind gets the public files. */
  lemma PlaceIsFree(r: seq<State>, acts: seq<Action>, i: nat, p: Pid)
    requires Run(r, acts) && i + 1 < |acts| && acts[i].Exit? && r[i].live[acts[i].p] == Stopping(false)
    requires exists k :: Public(k) in r[i].files && r[i].files[Public(k)].owner == acts[i].p
    requires acts[i + 1] == Bind(p)
    ensures Publishes(r[i + 2].files, p) && p in r[i + 2].live
  {
    ExitEmpties(r, acts, i);
    BindPublishes(r, acts, i + 1);
  }
}
