/** The file operations of a hand-over, one after the other on the directory. */
module HandoverObject {
  import opened Handover

  function OutcomeOf(locked: bool, first: bool, second: bool): Outcome {
    if !locked then Busy else if !first then FirstFails else if !second then SecondFails else Promoted
  }

  class Directory {
    var files: Files

    constructor ()
      ensures files == map[]
    {
      files := map[];
    }

    method Remove(n: Name)
      modifies this
      ensures files == old(files) - {n}
    {
      files := files - {n};
    }

    method Write(n: Name, f: File)
      modifies this
      ensures files == old(files)[n := f]
    {
      files := files[n := f];
    }

    method Move(from: Name, to: Name) returns (ok: bool)
      modifies this
      ensures ok <==> from in old(files)
      ensures files == if from in old(files) then Rename(old(files), from, to) else old(files)
    {
      ok := from in files;
      if ok {
        var f := files[from];
        files := files - {from};
        files := files[to := f];
      }
    }

    /** `cleanup_owned_generation_files`. */
    method CleanUpOwnedFiles(p: Pid)
      modifies this
      ensures files == CleanUpOwned(old(files), p)
    {
      if Public(Mark) in files && files[Public(Mark)] == PidFile(p) {
        Remove(Public(Sock));
        Remove(Public(Mark));
        Remove(Public(Meta));
      }
    }

    /** `cleanup_drain_generation_files`. */
    method CleanUpDrainFiles(p: Pid)
      modifies this
      ensures files == old(files) - DrainNames(p)
    {
      Remove(Drain(p, Sock));
      Remove(Drain(p, Mark));
      Remove(Drain(p, Meta));
    }

    /** `CleanupGuard`. */
    method ExitCleanly(p: Pid, drain: bool)
      modifies this
      ensures files == if drain then old(files) - DrainNames(p) else CleanUpOwned(old(files), p)
    {
      if drain { CleanUpDrainFiles(p); } else { CleanUpOwnedFiles(p); }
    }

    /** `bind_early` on the public path; `live` are the processes that still accept connections. */
    method BindEarly(p: Pid, live: set<Pid>) returns (ok: bool)
      modifies this
      ensures ok <==> !(Public(Sock) in old(files) && old(files)[Public(Sock)].owner in live)
      ensures files == if ok then Claim(old(files), p) else old(files)
    {
      if Public(Sock) in files {
        if files[Public(Sock)].owner in live { return false; }
        Remove(Public(Sock));
      }
      Write(Public(Sock), Socket(p));
      Write(Public(Mark), PidFile(p));
      Write(Public(Meta), Info(p, Active));
      ok := true;
    }

    /** `repair_public_socket_if_missing`. */
    method RepairPublicSocket(p: Pid)
      modifies this
      ensures forall s: State :: s.files == old(files) ==> RepairNext(s, p).files == files
    {
      if Public(Sock) in files {
        if Public(Mark) !in files {
          Write(Public(Mark), PidFile(p));
          Write(Public(Meta), Info(p, Active));
        }
        return;
      }
      Write(Public(Sock), Socket(p));
      Write(Public(Mark), PidFile(p));
      Write(Public(Meta), Info(p, Active));
    }

    /** The previous generation's files, after the drain files of its pid are gone. */
    method MoveOldAside(prev: Pid, info: File)
      requires Public(Sock) in files && info == DrainInfo(files, prev)
      modifies this
      ensures files == MovedAside(old(files), prev)
    {
      var ok := Move(Public(Sock), Drain(prev, Sock));
      Write(Drain(prev, Mark), PidFile(prev));
      Write(Drain(prev, Meta), info);
    }

    method MoveOldBack(prev: Pid)
      requires Drain(prev, Sock) in files
      modifies this
      ensures files == RollBack(old(files), prev)
    {
      var ok := Move(Drain(prev, Sock), Public(Sock));
      Write(Public(Mark), PidFile(prev));
    }

    method ClaimPublic(p: Pid, up: Pid)
      modifies this
      ensures files == old(files)[Public(Mark) := PidFile(p)][Public(Meta) := Info(p, Active)]
                       - {Staged(up, Mark), Staged(up, Meta)}
    {
      Write(Public(Mark), PidFile(p));
      Write(Public(Meta), Info(p, Active));
      Remove(Staged(up, Mark));
      Remove(Staged(up, Meta));
    }

    /** `promote_staged_inner`; `locked`, `first` and `second` say whether the lock and the two renames succeed. */
    method PromoteStaged(p: Pid, up: Pid, prev: Pid, alive: bool, locked: bool, first: bool, second: bool)
      returns (done: bool)
      modifies this
      ensures files == Promotion(old(files), alive, p, up, prev, OutcomeOf(locked, first, second)).0
      ensures done == Promotion(old(files), alive, p, up, prev, OutcomeOf(locked, first, second)).1
    {
      done := false;
      var info := DrainInfo(files, prev);
      if !locked || !(Public(Mark) in files && files[Public(Mark)] == PidFile(prev)) || !alive { return; }
      CleanUpDrainFiles(prev);
      if !first || Public(Sock) !in files { return; }
      MoveOldAside(prev, info);
      if !second || Staged(up, Sock) !in files {
        MoveOldBack(prev);
        return;
      }
      done := Move(Staged(up, Sock), Public(Sock));
      ClaimPublic(p, up);
    }
  }
}
