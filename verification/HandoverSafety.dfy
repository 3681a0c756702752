/** What every hand-over keeps. */
module HandoverSafety {
  import opened Handover

  /** The public files of generation g. */
  predicate Publishes(f: Files, g: Pid) {
    && Public(Sock) in f && f[Public(Sock)] == Socket(g) && Names(f, g)
    && Public(Meta) in f && f[Public(Meta)] == Info(g, Active)
  }

  predicate NoPublicFiles(f: Files) { Public(Sock) !in f && Public(Mark) !in f && Public(Meta) !in f }

  /** Socket, PID file and metadata name the same generation, or all are absent. */
  ghost predicate Agree(f: Files) { NoPublicFiles(f) || exists g :: Publishes(f, g) }

  /** The same, but for metadata a dead generation has left behind. */
  ghost predicate AgreeBut(s: State) {
    Agree(s.files)
    || (Public(Sock) !in s.files && Public(Mark) !in s.files
        && Public(Meta) in s.files && s.files[Public(Meta)].owner !in s.live)
  }

  /** A staged daemon has its socket where it was bound, under a command of its own. */
  ghost predicate StagesOk(s: State) {
    && (forall p :: p in s.live && s.live[p].Staging? ==>
          Staged(s.live[p].up, Sock) in s.files && s.files[Staged(s.live[p].up, Sock)] == Socket(p))
    && (forall p, q :: p in s.live && q in s.live && p != q && s.live[p].Staging? && s.live[q].Staging? ==>
          s.live[p].up != s.live[q].up)
  }

  /** Every generation that serves, or still finishes, has its socket in place: in public or beside it. */
  ghost predicate InPlace(s: State) {
    forall p :: p in s.live && !s.live[p].Staging? ==>
      || (Public(Sock) in s.files && s.files[Public(Sock)] == Socket(p))
      || (Drain(p, Sock) in s.files && s.files[Drain(p, Sock)] == Socket(p))
  }

  ghost predicate DrainsOwned(f: Files) { forall p, k :: Drain(p, k) in f ==> f[Drain(p, k)].owner == p }

  ghost predicate UsedOk(s: State) {
    && (forall p :: p in s.live ==> p in s.used && (s.live[p].Staging? ==> s.live[p].up in s.used))
    && (forall n :: n in s.files ==> s.files[n].owner in s.used)
  }

  ghost predicate Inv(s: State) { AgreeBut(s) && StagesOk(s) && InPlace(s) && DrainsOwned(s.files) && UsedOk(s) }

  // ---- Steps ----

  lemma BindKeeps(s: State, p: Pid)
    requires Inv(s) && p !in s.used
    ensures Inv(BindNext(s, p))
  {
    if !Connectable(s) { assert Publishes(Claim(s.files, p), p); }
  }

  lemma StagedFiles(s: State, p: Pid, up: Pid)
    requires Inv(s) && p !in s.used && up !in s.used && p != up
    ensures var t := StageNext(s, p, up); AgreeBut(t) && InPlace(t) && DrainsOwned(t.files)
  {
    if g :| Publishes(s.files, g) { assert Publishes(StageNext(s, p, up).files, g); }
  }

  lemma StagesMore(s: State, p: Pid, up: Pid)
    requires Inv(s) && p !in s.used && up !in s.used && p != up
    ensures StagesOk(StageNext(s, p, up)) && UsedOk(StageNext(s, p, up))
  {
    forall q | q in s.live && s.live[q].Staging? ensures s.live[q].up != up {}
  }

  lemma StageKeeps(s: State, p: Pid, up: Pid)
    requires Inv(s) && p !in s.used && up !in s.used && p != up
    ensures Inv(StageNext(s, p, up))
  {
    StagedFiles(s, p, up);
    StagesMore(s, p, up);
  }

  lemma RepairKeeps(s: State, p: Pid)
    requires Inv(s) && p in s.live && s.live[p].Serving?
    ensures Inv(RepairNext(s, p))
  {
    if Public(Sock) !in s.files { assert Publishes(Claim(s.files, p), p); }
  }

  lemma ExitKeeps(s: State, p: Pid)
    requires Inv(s) && p in s.live && s.live[p].Stopping?
    ensures Inv(ExitNext(s, p))
  {
    if g :| Publishes(s.files, g) {
      assert ExitNext(s, p).files == s.files - PublicNames() || Publishes(ExitNext(s, p).files, g);
    }
  }

  /** Files gone that nobody alive needs. */
  lemma DropKeeps(s: State, t: State)
    requires Inv(s) && t.used == s.used && t.live == s.live
    requires forall n :: n in t.files ==> n in s.files && t.files[n] == s.files[n]
    requires AgreeBut(t)
    requires forall n :: n in s.files && s.files[n].Socket? && s.files[n].owner in s.live ==> n in t.files
    ensures Inv(t)
  {
  }

  lemma StagedFailsKeeps(s: State, p: Pid)
    requires Inv(s) && p in s.live && s.live[p].Staging?
    ensures Inv(Next(s, StagedFails(p)))
  {
    if g :| Publishes(s.files, g) { assert Publishes(Next(s, StagedFails(p)).files, g); }
  }

  /** A promotion refused: the staged daemon is gone, and perhaps old drain files. */
  lemma RefusedKeeps(s: State, p: Pid, prev: Pid, t: State)
    requires Inv(s) && p in s.live && s.live[p].Staging?
    requires || t == s.(live := s.live - {p})
             || (t == s.(files := s.files - DrainNames(prev), live := s.live - {p}) && Publishes(s.files, prev))
    ensures Inv(t)
  {
    if g :| Publishes(s.files, g) { assert Publishes(t.files, g); }
  }

  /** The second rename fails: the socket is public again, under the same name. */
  lemma RolledBackKeeps(s: State, p: Pid, prev: Pid)
    requires Inv(s) && p in s.live && s.live[p].Staging? && Publishes(s.files, prev)
    ensures Publishes(RollBack(MoveAside(s.files, prev), prev), prev)
    ensures Inv(s.(files := RollBack(MoveAside(s.files, prev), prev), live := s.live - {p}))
  {
    var f, g := s.files, RollBack(MoveAside(s.files, prev), prev);
    RolledBackFiles(f, prev);
    OnlyDrainsChange(s, s.(files := g, live := s.live - {p}), prev);
  }

  /** Rolling back restores the public files; drain files of the old generation may stay behind. */
  lemma RolledBackFiles(f: Files, prev: Pid)
    requires Publishes(f, prev)
    ensures var g := RollBack(MoveAside(f, prev), prev);
      && Publishes(g, prev)
      && (forall n :: n !in DrainNames(prev) ==> (n in f <==> n in g) && (n in f ==> f[n] == g[n]))
      && (forall n :: n in DrainNames(prev) && n in g ==> g[n].owner == prev)
  {
  }

  lemma OnlyDrainsChange(s: State, t: State, prev: Pid)
    requires Inv(s) && Publishes(s.files, prev) && Publishes(t.files, prev)
    requires t.used == s.used && t.live.Keys <= s.live.Keys && forall q :: q in t.live ==> t.live[q] == s.live[q]
    requires forall n :: n !in DrainNames(prev) ==>
               (n in s.files <==> n in t.files) && (n in s.files ==> s.files[n] == t.files[n])
    requires forall n :: n in DrainNames(prev) && n in t.files ==> t.files[n].owner == prev
    ensures Inv(t)
  {
  }

  function AfterPromotion(s: State, p: Pid, prev: Pid): State
    requires p in s.live && s.live[p].Staging? && Public(Sock) in s.files
    requires Staged(s.live[p].up, Sock) in MoveAside(s.files, prev)
  {
    s.(files := TakeOver(MoveAside(s.files, prev), p, s.live[p].up), live := s.live[p := Serving])
  }

  lemma PromotedFiles(s: State, p: Pid, prev: Pid)
    requires StagesOk(s) && DrainsOwned(s.files) && UsedOk(s)
    requires p in s.live && s.live[p].Staging? && Publishes(s.files, prev)
    ensures Staged(s.live[p].up, Sock) in MoveAside(s.files, prev)
    ensures var t := AfterPromotion(s, p, prev); Publishes(t.files, p) && DrainsOwned(t.files) && UsedOk(t)
  {
  }

  lemma PromotedStages(s: State, p: Pid, prev: Pid)
    requires StagesOk(s) && p in s.live && s.live[p].Staging? && Publishes(s.files, prev)
    ensures StagesOk(AfterPromotion(s, p, prev))
  {
  }

  lemma PromotedInPlace(s: State, p: Pid, prev: Pid)
    requires StagesOk(s) && InPlace(s) && p in s.live && s.live[p].Staging? && Publishes(s.files, prev)
    ensures InPlace(AfterPromotion(s, p, prev))
  {
  }

  lemma PromotedKeeps(s: State, p: Pid, prev: Pid)
    requires Inv(s) && p in s.live && s.live[p].Staging? && Publishes(s.files, prev)
    ensures Staged(s.live[p].up, Sock) in MoveAside(s.files, prev)
    ensures Publishes(AfterPromotion(s, p, prev).files, p) && Inv(AfterPromotion(s, p, prev))
  {
    PromotedFiles(s, p, prev);
    PromotedStages(s, p, prev);
    PromotedInPlace(s, p, prev);
  }

  lemma NamedIsPublished(s: State, p: Pid)
    requires AgreeBut(s) && Names(s.files, p)
    ensures Publishes(s.files, p)
  {
  }

  lemma PromoteKeeps(s: State, p: Pid, prev: Pid, outcome: Outcome)
    requires Inv(s) && p in s.live && s.live[p].Staging? && prev != p
    ensures Inv(PromoteNext(s, p, prev, outcome))
  {
    var t := PromoteNext(s, p, prev, outcome);
    if outcome.Busy? || !Names(s.files, prev) || prev !in s.live {
      RefusedKeeps(s, p, prev, t);
    } else {
      NamedIsPublished(s, prev);
      if outcome.FirstFails? {
        RefusedKeeps(s, p, prev, t);
      } else {
        PromotedKeeps(s, p, prev);
        if outcome.SecondFails? { RolledBackKeeps(s, p, prev); }
      }
    }
  }

  lemma EndKeeps(s: State, p: Pid, drain: bool)
    requires Inv(s) && p in s.live
    ensures Inv(s.(live := s.live - {p}))
    ensures s.live[p].Serving? ==> Inv(s.(live := s.live[p := Stopping(drain)]))
  {
  }

  lemma CleanUpKeeps(s: State, a: Action)
    requires Inv(s) && (a.CleanUpStale? || a.ProxyCleanUp?)
    ensures Inv(Next(s, a))
  {
    DropKeeps(s, Next(s, a));
  }

  lemma DiscoverKeeps(s: State)
    requires Inv(s)
    ensures Inv(Next(s, Discover))
  {
    if g :| Publishes(s.files, g) { assert Publishes(Next(s, Discover).files, g); }
    DropKeeps(s, Next(s, Discover));
  }

  lemma StepKeeps(s: State, a: Action)
    requires Inv(s) && Enabled(s, a)
    ensures Inv(Next(s, a))
  {
    if a.Bind? { BindKeeps(s, a.p); }
    else if a.Stage? { StageKeeps(s, a.p, a.up); }
    else if a.StagedFails? { StagedFailsKeeps(s, a.p); }
    else if a.Promote? { PromoteKeeps(s, a.p, a.prev, a.outcome); }
    else if a.Leave? { EndKeeps(s, a.p, a.drain); }
    else if a.Repair? { RepairKeeps(s, a.p); }
    else if a.Exit? { ExitKeeps(s, a.p); }
    else if a.Crash? { EndKeeps(s, a.p, false); }
    else if a.Discover? { DiscoverKeeps(s); }
    else { CleanUpKeeps(s, a); }
  }

  lemma {:induction false} Always(r: seq<State>, acts: seq<Action>, i: nat)
    requires Run(r, acts) && i < |r|
    ensures Inv(r[i])
  {
    if i > 0 {
      Always(r, acts, i - 1);
      StepKeeps(r[i - 1], acts[i - 1]);
    }
  }

  // ---- The results ----

  /** After any sequence of hand-overs, exits, repairs, crashes and clean-ups: whoever the PID file names is who
      listens on the public socket and whom the metadata describes, and every generation still running can be
      reached where its clients expect it. */
  lemma GenerationsAgree(r: seq<State>, acts: seq<Action>, i: nat)
    requires Run(r, acts) && i < |r|
    ensures AgreeBut(r[i]) && InPlace(r[i])
    ensures forall g :: Names(r[i].files, g) ==> Publishes(r[i].files, g)
  {
    Always(r, acts, i);
    forall g | Names(r[i].files, g) ensures Publishes(r[i].files, g) { NamedIsPublished(r[i], g); }
  }

  /** An exiting generation removes no file of another. */
  lemma ExitRemovesOwn(r: seq<State>, acts: seq<Action>, i: nat, n: Name)
    requires Run(r, acts) && i < |acts| && acts[i].Exit? && n in r[i].files && r[i].files[n].owner != acts[i].p
    ensures n in r[i + 1].files && r[i + 1].files[n] == r[i].files[n]
  {
    Always(r, acts, i);
    if Names(r[i].files, acts[i].p) { NamedIsPublished(r[i], acts[i].p); }
  }

  lemma RefusedPublishes(f: Files, prev: Pid)
    requires Publishes(f, prev)
    ensures Publishes(f - DrainNames(prev), prev)
  {
  }

  lemma TakenOver(f: Files, p: Pid, up: Pid, prev: Pid)
    requires Publishes(f, prev) && Staged(up, Sock) in f && f[Staged(up, Sock)] == Socket(p)
    ensures Staged(up, Sock) in MoveAside(f, prev)
    ensures var g := TakeOver(MoveAside(f, prev), p, up);
      Publishes(g, p) && Drain(prev, Sock) in g && g[Drain(prev, Sock)] == Socket(prev)
  {
  }

  lemma PromotionFiles(f: Files, alive: bool, p: Pid, up: Pid, prev: Pid, outcome: Outcome)
    requires Publishes(f, prev) && Staged(up, Sock) in f && f[Staged(up, Sock)] == Socket(p)
    ensures var (g, done) := Promotion(f, alive, p, up, prev, outcome);
      && (done <==> outcome.Promoted? && alive)
      && (if done then Publishes(g, p) && Drain(prev, Sock) in g && g[Drain(prev, Sock)] == Socket(prev)
          else Publishes(g, prev))
  {
    TakenOver(f, p, up, prev);
    RolledBackFiles(f, prev);
    RefusedPublishes(f, prev);
  }

  /** A promotion that succeeds leaves the old generation where draining clients reach it, and no promotion that
      fails takes the public files from it. */
  lemma PromotionKeepsBoth(r: seq<State>, acts: seq<Action>, i: nat)
    requires Run(r, acts) && i < |acts| && acts[i].Promote? && Names(r[i].files, acts[i].prev)
    ensures var p, prev, t := acts[i].p, acts[i].prev, r[i + 1];
      && (p in t.live <==> acts[i].outcome.Promoted? && prev in r[i].live)
      && (if p in t.live then
            Publishes(t.files, p) && Drain(prev, Sock) in t.files && t.files[Drain(prev, Sock)] == Socket(prev)
          else Publishes(t.files, prev))
  {
    Always(r, acts, i);
    assert Enabled(r[i], acts[i]);
    NamedIsPublished(r[i], acts[i].prev);
    var s, a := r[i], acts[i];
    PromotionFiles(s.files, a.prev in s.live, a.p, s.live[a.p].up, a.prev, a.outcome);
  }

  /** The proxy's clean-up, which forgets the metadata, is the only step that can leave the three in disagreement,
      and does so exactly if it finds a socket whose generation is dead. */
  lemma DisagreeIff(s: State, a: Action)
    requires Inv(s) && Enabled(s, a) && Agree(s.files)
    ensures Agree(Next(s, a).files) <==> !(a.ProxyCleanUp? && Public(Sock) in s.files && !MarkAlive(s))
  {
    StepKeeps(s, a);
    var t := Next(s, a);
    if a.ProxyCleanUp? {
      if Public(Sock) in s.files && !MarkAlive(s) {
        var g :| Publishes(s.files, g);
        assert Public(Meta) in t.files && Public(Sock) !in t.files;
      }
    } else {
      MetaStays(s, a);
    }
  }

  lemma MetaStays(s: State, a: Action)
    requires Inv(s) && Enabled(s, a) && Agree(s.files) && !a.ProxyCleanUp?
    ensures var t := Next(s, a); Public(Meta) in t.files ==> Public(Sock) in t.files
  {
    if a.Promote? && Names(s.files, a.prev) { NamedIsPublished(s, a.prev); }
  }

  /** Without it they agree throughout. */
  lemma {:induction false} AgreeThroughout(r: seq<State>, acts: seq<Action>, i: nat)
    requires Run(r, acts) && i < |r| && forall j :: 0 <= j < i ==> !acts[j].ProxyCleanUp?
    ensures Agree(r[i].files)
  {
    if i > 0 {
      AgreeThroughout(r, acts, i - 1);
      Always(r, acts, i - 1);
      DisagreeIff(r[i - 1], acts[i - 1]);
    }
  }

  /** And it does: a generation crashes, and a proxy cleans up after it. */
  lemma MetadataLeftBehind() returns (r: seq<State>, acts: seq<Action>)
    ensures Run(r, acts) && !Agree(r[|acts|].files)
  {
    var s1 := Next(INITIAL, Bind(1));
    var s2 := Next(s1, Crash(1));
    var s3 := Next(s2, ProxyCleanUp);
    r, acts := [INITIAL, s1, s2, s3], [Bind(1), Crash(1), ProxyCleanUp];
    assert Publishes(s1.files, 1);
    assert Public(Meta) in s3.files && Public(Sock) !in s3.files;
  }
}
