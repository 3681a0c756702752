/**
 When a caller can be forgotten.

 The instances serve sessions 0 to max - 1; four acquires of one more session and then one of another sleep.  Two
 instances are released, which notifies two of the four, and replenishing fails, which notifies the other two.  One
 of the four spawns an instance for the session; the others wake, find it, and return.  A permit is free, every
 call has returned but the last, and nobody will tell it.
 */
module PoolLostWakeup {
  import opened Pool
  import opened PoolWakeups

  /** An acquire sleeps beside something free, and no call is left that could wake it. */
  ghost predicate Forgotten(s: State) {
    && SomeSleeper(s.tasks) && Free(s.shared) > 0
    && forall i :: 0 <= i < |s.tasks| ==> s.tasks[i].pc.Done? || Sleeper(s.tasks[i])
  }

  lemma ForgottenIsLost(s: State)
    requires Forgotten(s)
    ensures !NoLostWakeup(s)
  {
    forall i | 0 <= i < |s.tasks| ensures Weight(s.tasks[i]) == 0 {
      assert s.tasks[i].pc.Done? || Sleeper(s.tasks[i]);
    }
  }

  // ---- Runs, step by step ----

  ghost predicate Reachable(from: State, s: State) { exists r, acts :: Run(r, acts) && r[0] == from && r[|acts|] == s }

  /** Closed under the pool's steps. */
  ghost predicate Closed(P: State -> bool) {
    forall s, a {:trigger Next(s, a)} :: P(s) && Enabled(s, a) ==> P(Next(s, a))
  }

  lemma ReachableClosed(from: State)
    ensures Closed(s => Reachable(from, s))
  {
    hide Next, Enabled, Init;
    forall s, a | Reachable(from, s) && Enabled(s, a) ensures Reachable(from, Next(s, a)) {
      var r, acts :| Run(r, acts) && r[0] == from && r[|acts|] == s;
      var r', acts' := r + [Next(s, a)], acts + [a];
      assert Run(r', acts') && r'[|acts'|] == Next(s, a);
    }
  }

  lemma Reach(P: State -> bool, s: State, a: Action) returns (g: State)
    requires Closed(P) && P(s) && Enabled(s, a)
    ensures g == Next(s, a) && P(g)
  {
    g := Next(s, a);
  }

  ghost predicate SameSize(s: State, g: State) { g.max == s.max && g.minIdle == s.minIdle && g.stored == s.stored }

  /** A fresh acquire spawns an instance. */
  lemma Acquires(P: State -> bool, s: State, k: Session) returns (g: State)
    requires Closed(P) && P(s) && !s.stored && !SomeWaiting(s.tasks)
    requires s.shared.idle == [] && s.shared.permits > 0 && k !in s.shared.assignedTo
    ensures P(g) && SameSize(s, g) && g.shared.permits == s.shared.permits - 1 && g.shared.idle == []
    ensures g.shared.assignedTo.Keys == s.shared.assignedTo.Keys + {k}
    ensures g.tasks == s.tasks + [Task(k, Done, Spent, false)]
  {
    var ts, t, x := s.tasks, |s.tasks|, |s.shared.places|;
    g := Reach(P, s, StartAcquire(k));
    assert g.tasks == ts + [Task(k, ACheck, Unnotified, false)];
    g := Reach(P, g, Advance(t, true, t));
    assert g.tasks == ts + [Task(k, AIdle, Unnotified, false)];
    g := Reach(P, g, Advance(t, true, t));
    assert g.tasks == ts + [Task(k, APermit, Unnotified, false)];
    g := Reach(P, g, Advance(t, true, t));
    assert g.tasks == ts + [Task(k, ASpawn(x), Unnotified, false)];
    g := Reach(P, g, Advance(t, true, t));
    assert g.tasks == ts + [Task(k, AInsert(x), Unnotified, false)];
    g := Reach(P, g, Advance(t, true, t));
    assert g.tasks == ts + [Task(k, AReturn, Unnotified, false)];
    g := Reach(P, g, Advance(t, true, t));
  }

  /** A fresh acquire finds nothing and sleeps. */
  lemma Sleeps(P: State -> bool, s: State, k: Session) returns (g: State)
    requires Closed(P) && P(s) && !s.stored && Free(s.shared) == 0 && k !in s.shared.assignedTo
    ensures P(g) && g == s.(tasks := s.tasks + [Task(k, ASleep, Unnotified, false)])
  {
    var ts, t := s.tasks, |s.tasks|;
    g := Reach(P, s, StartAcquire(k));
    assert g.tasks == ts + [Task(k, ACheck, Unnotified, false)];
    g := Reach(P, g, Advance(t, true, t));
    assert g.tasks == ts + [Task(k, AIdle, Unnotified, false)];
    g := Reach(P, g, Advance(t, true, t));
    assert g.tasks == ts + [Task(k, APermit, Unnotified, false)];
    g := Reach(P, g, Advance(t, true, t));
  }

  lemma Notifies(P: State -> bool, s: State, t: nat, who: nat) returns (g: State)
    requires Closed(P) && P(s) && t < |s.tasks| && s.tasks[t].pc.RNotify?
    requires who < |s.tasks| && Waiting(s.tasks[who])
    ensures P(g) && SameSize(s, g) && g.shared == s.shared
    ensures g.tasks == s.tasks[t := s.tasks[t].(pc := RCount)][who := s.tasks[who].(note := Passable)]
  {
    g := Reach(P, s, Advance(t, true, who));
  }

  /** A release credits the permit and notifies `who`. */
  lemma Releases(P: State -> bool, s: State, k: Session, who: nat) returns (g: State)
    requires Closed(P) && P(s) && k in s.shared.assignedTo && who < |s.tasks| && Waiting(s.tasks[who])
    ensures P(g) && SameSize(s, g)
    ensures g.shared.permits == s.shared.permits + 1 && g.shared.idle == s.shared.idle
    ensures g.shared.assignedTo == s.shared.assignedTo - {k}
    ensures g.tasks == s.tasks[who := s.tasks[who].(note := Passable)] + [Task(k, RCount, Spent, false)]
  {
    var ts, t := s.tasks, |s.tasks|;
    g := Reach(P, s, StartRelease(k));
    assert g.tasks[who] == ts[who];
    g := Reach(P, g, Advance(t, true, who));
    assert g.tasks == ts + [Task(k, RStop, Spent, false)];
    g := Reach(P, g, Advance(t, true, who));
    assert g.tasks == ts + [Task(k, RNotify, Spent, false)];
    g := Notifies(P, g, t, who);
  }

  /** It ends there if no idle instances are wanted. */
  lemma Ends(P: State -> bool, s: State, t: nat, who: nat) returns (g: State)
    requires Closed(P) && P(s) && s.minIdle == 0 && t < |s.tasks| && s.tasks[t].pc.RCount?
    requires who < |s.tasks| && Waiting(s.tasks[who])
    ensures P(g) && g == s.(tasks := s.tasks[t := s.tasks[t].(pc := Done)])
  {
    g := Reach(P, s, Advance(t, true, who));
  }

  /** Otherwise it takes the permit to replenish, */
  lemma Replenishes(P: State -> bool, s: State, t: nat, who: nat) returns (g: State)
    requires Closed(P) && P(s) && s.minIdle > 0 && s.shared.idle == [] && s.shared.permits > 0
    requires t < |s.tasks| && s.tasks[t].pc.RCount? && who < |s.tasks| && who != t && Waiting(s.tasks[who])
    ensures P(g) && SameSize(s, g) && g.shared.permits == s.shared.permits - 1 && g.shared.idle == []
    ensures g.shared.assignedTo == s.shared.assignedTo
    ensures exists x :: g.tasks == s.tasks[t := s.tasks[t].(pc := RSpawn(x))]
  {
    var u := s.tasks[t];
    g := Reach(P, s, Advance(t, true, who));
    assert g.tasks == s.tasks[t := u.(pc := RPermit)];
    g := Reach(P, g, Advance(t, true, who));
    assert g.tasks == s.tasks[t := u.(pc := RSpawn(|s.shared.places|))];
  }

  /** fails and gives it back, */
  lemma GivesBack(P: State -> bool, s: State, t: nat, who: nat) returns (g: State)
    requires Closed(P) && P(s) && t < |s.tasks| && s.tasks[t].pc.RSpawn?
    requires who < |s.tasks| && who != t && Waiting(s.tasks[who])
    ensures P(g) && SameSize(s, g) && g.shared.permits == s.shared.permits + 1 && g.shared.idle == s.shared.idle
    ensures g.shared.assignedTo == s.shared.assignedTo
    ensures g.tasks == s.tasks[t := s.tasks[t].(pc := RNotifyLast)]
  {
    g := Reach(P, s, Advance(t, false, who));
    assert g.tasks == s.tasks[t := s.tasks[t].(pc := RFail)];
    g := Reach(P, g, Advance(t, true, who));
  }

  /** and notifies `who`. */
  lemma FailsToSpawn(P: State -> bool, s: State, t: nat, who: nat) returns (g: State)
    requires Closed(P) && P(s) && t < |s.tasks| && s.tasks[t].pc.RSpawn?
    requires who < |s.tasks| && who != t && Waiting(s.tasks[who])
    ensures P(g) && SameSize(s, g) && g.shared.permits == s.shared.permits + 1 && g.shared.idle == s.shared.idle
    ensures g.shared.assignedTo == s.shared.assignedTo
    ensures g.tasks == s.tasks[t := s.tasks[t].(pc := Done)][who := s.tasks[who].(note := Passable)]
  {
    g := GivesBack(P, s, t, who);
    g := Reach(P, g, Advance(t, true, who));
  }

  /** Either way the release is over; `who` may have been notified, `other` was not. */
  lemma ReleaseEnds(P: State -> bool, s: State, t: nat, who: nat, other: nat) returns (g: State)
    requires Closed(P) && P(s) && s.shared.idle == [] && s.shared.permits > 0
    requires t < |s.tasks| && s.tasks[t].pc.RCount? && who < |s.tasks| && who != t && Waiting(s.tasks[who])
    requires other < |s.tasks| && other != t && other != who && Waiting(s.tasks[other])
    ensures P(g) && SameSize(s, g) && g.shared.permits == s.shared.permits && g.shared.idle == []
    ensures g.shared.assignedTo == s.shared.assignedTo && |g.tasks| == |s.tasks| && g.tasks[t].pc.Done?
    ensures g.tasks[who] == s.tasks[who] || g.tasks[who] == s.tasks[who].(note := Passable)
    ensures forall i :: 0 <= i < |s.tasks| && i != t && i != who ==> g.tasks[i] == s.tasks[i]
  {
    if s.minIdle == 0 {
      g := Ends(P, s, t, other);
    } else {
      g := Replenishes(P, s, t, other);
      g := FailsToSpawn(P, g, t, who);
    }
  }

  /** A notified sleeper wakes and finds neither an instance for its session nor an idle one. */
  lemma Wakes(P: State -> bool, s: State, t: nat, who: nat) returns (g: State)
    requires Closed(P) && P(s) && !s.stored && s.shared.idle == [] && t < |s.tasks| && who < |s.tasks| && who != t
    requires s.tasks[t].pc.ASleep? && s.tasks[t].note == Passable && Waiting(s.tasks[who])
    requires s.tasks[t].session !in s.shared.assignedTo
    ensures P(g) && g == s.(tasks := s.tasks[t := Task(s.tasks[t].session, APermit, Unnotified, true)])
  {
    var u := Task(s.tasks[t].session, ACheck, Unnotified, true);
    g := Reach(P, s, Advance(t, true, who));
    assert g.tasks == s.tasks[t := u];
    g := Reach(P, g, Advance(t, true, who));
    assert g.tasks == s.tasks[t := u.(pc := AIdle)];
    g := Reach(P, g, Advance(t, true, who));
  }

  /** It takes a permit and spawns an instance for its session. */
  lemma Spawns(P: State -> bool, s: State, t: nat, who: nat) returns (g: State)
    requires Closed(P) && P(s) && s.shared.permits > 0 && t < |s.tasks| && s.tasks[t].pc.APermit?
    requires who < |s.tasks| && who != t && Waiting(s.tasks[who])
    ensures P(g) && SameSize(s, g) && g.shared.permits == s.shared.permits - 1
    ensures s.tasks[t].session in g.shared.assignedTo
    ensures g.tasks == s.tasks[t := s.tasks[t].(pc := AReturn)]
  {
    var x := |s.shared.places|;
    g := Reach(P, s, Advance(t, true, who));
    assert g.tasks == s.tasks[t := s.tasks[t].(pc := ASpawn(x))];
    g := Reach(P, g, Advance(t, true, who));
    assert g.tasks == s.tasks[t := s.tasks[t].(pc := AInsert(x))];
    g := Reach(P, g, Advance(t, true, who));
  }

  /** An acquire that carries no notification returns. */
  lemma Returns(P: State -> bool, s: State, t: nat, who: nat) returns (g: State)
    requires Closed(P) && P(s) && t < |s.tasks| && s.tasks[t].pc.AReturn? && s.tasks[t].note == Unnotified
    requires who < |s.tasks| && who != t && Waiting(s.tasks[who])
    ensures P(g) && SameSize(s, g) && g.shared == s.shared
    ensures exists u: Task :: u.pc.Done? && g.tasks == s.tasks[t := u]
  {
    g := Reach(P, s, Advance(t, true, who));
    assert g.tasks == s.tasks[t := s.tasks[t].(pc := Done, note := Spent)];
  }

  /** A notified sleeper wakes, finds its session served, and returns. */
  lemma Swallowed(P: State -> bool, s: State, t: nat, who: nat) returns (g: State)
    requires Closed(P) && P(s) && !s.stored && t < |s.tasks| && who < |s.tasks| && who != t
    requires s.tasks[t].pc.ASleep? && s.tasks[t].note == Passable && Waiting(s.tasks[who])
    requires s.tasks[t].session in s.shared.assignedTo
    ensures P(g) && SameSize(s, g) && g.shared == s.shared
    ensures exists u: Task :: u.pc.Done? && g.tasks == s.tasks[t := u]
  {
    var u := Task(s.tasks[t].session, ACheck, Unnotified, true);
    g := Reach(P, s, Advance(t, true, who));
    assert g.tasks == s.tasks[t := u];
    g := Reach(P, g, Advance(t, true, who));
    assert g.tasks == s.tasks[t := u.(pc := AReturn)];
    g := Returns(P, g, t, who);
  }

  // ---- The run ----

  /** A pool none of whose instances could be pre-warmed. */
  function Cold(max: nat, minIdle: nat): State { State(max, minIdle, Shared(max, [], map[], [], 0), false, []) }

  ghost predicate AllDone(ts: seq<Task>, n: nat) { n <= |ts| && forall i :: 0 <= i < n ==> ts[i].pc.Done? }

  /** The first n sessions are served. */
  lemma {:induction false} Serves(P: State -> bool, max: nat, minIdle: nat, n: nat) returns (s: State)
    requires Closed(P) && P(Cold(max, minIdle)) && n <= max
    ensures P(s) && SameSize(Cold(max, minIdle), s) && s.shared.permits == max - n && s.shared.idle == []
    ensures forall k: Session :: k in s.shared.assignedTo <==> k < n
    ensures |s.tasks| == n && AllDone(s.tasks, n)
  {
    if n == 0 {
      s := Cold(max, minIdle);
    } else {
      s := Serves(P, max, minIdle, n - 1);
      s := Acquires(P, s, n - 1);
    }
  }

  function Asleep(k: Session): Task { Task(k, ASleep, Unnotified, false) }

  /** All sessions below max are served; four acquires of session max and one of the next sleep. */
  lemma Crowd(P: State -> bool, max: nat, minIdle: nat) returns (s: State)
    requires Closed(P) && P(Cold(max, minIdle))
    ensures P(s) && SameSize(Cold(max, minIdle), s) && Free(s.shared) == 0 && |s.tasks| == max + 5
    ensures forall k: Session :: k in s.shared.assignedTo <==> k < max
    ensures AllDone(s.tasks, max)
    ensures s.tasks[max] == s.tasks[max + 1] == s.tasks[max + 2] == s.tasks[max + 3] == Asleep(max)
    ensures s.tasks[max + 4] == Asleep(max + 1)
  {
    s := Serves(P, max, minIdle, max);
    var ts := s.tasks;
    s := Sleeps(P, s, max);
    s := Sleeps(P, s, max);
    s := Sleeps(P, s, max);
    s := Sleeps(P, s, max);
    s := Sleeps(P, s, max + 1);
    assert s.tasks == ts + [Asleep(max), Asleep(max), Asleep(max), Asleep(max), Asleep(max + 1)];
  }

  /** Done, asleep, or notified while the session `k` is served. */
  predicate Settled(t: Task, k: Session) {
    t.pc.Done? || (t.pc.ASleep? && (t.note == Unnotified || (t.note == Passable && t.session == k)))
  }

  /** Two releases notify two or four of the acquires of session max, not the last. */
  lemma Notified4(P: State -> bool, s0: State, n: nat) returns (s: State)
    requires Closed(P) && P(s0) && Free(s0.shared) == 0 && |s0.tasks| == n + 5
    requires 0 in s0.shared.assignedTo && 1 in s0.shared.assignedTo && n !in s0.shared.assignedTo
    requires AllDone(s0.tasks, n)
    requires s0.tasks[n] == s0.tasks[n + 1] == s0.tasks[n + 2] == s0.tasks[n + 3] == Asleep(n)
    requires s0.tasks[n + 4] == Asleep(n + 1)
    ensures P(s) && SameSize(s0, s) && s.shared.permits == 2 && s.shared.idle == [] && n !in s.shared.assignedTo
    ensures |s.tasks| == n + 7 && s.tasks[n] == Asleep(n).(note := Passable) && s.tasks[n + 4] == Asleep(n + 1)
    ensures forall i :: 0 <= i < n + 7 && i != n ==> Settled(s.tasks[i], n)
  {
    s := Releases(P, s0, 0, n);
    s := Releases(P, s, 1, n + 1);
    var ts := s.tasks;
    assert ts[n + 5].pc.RCount? && ts[n + 6].pc.RCount? && ts[n + 1] == Asleep(n).(note := Passable);
    assert forall i :: 0 <= i < n ==> ts[i].pc.Done?;
    s := ReleaseEnds(P, s, n + 5, n + 2, n + 4);
    s := ReleaseEnds(P, s, n + 6, n + 3, n + 4);
  }

  /** The first of them serves the session. */
  lemma FirstServes(P: State -> bool, s0: State, n: nat, last: nat) returns (s: State)
    requires Closed(P) && P(s0) && !s0.stored
    requires s0.shared.permits == 2 && s0.shared.idle == [] && n !in s0.shared.assignedTo
    requires n < last < |s0.tasks| && s0.tasks[n] == Asleep(n).(note := Passable) && Sleeper(s0.tasks[last])
    requires forall i :: 0 <= i < |s0.tasks| && i != n ==> Settled(s0.tasks[i], n)
    ensures P(s) && !s.stored && s.shared.permits == 1 && n in s.shared.assignedTo
    ensures |s.tasks| == |s0.tasks| && s.tasks[last] == s0.tasks[last]
    ensures forall i :: 0 <= i < |s.tasks| ==> Settled(s.tasks[i], n)
  {
    s := Wakes(P, s0, n, last);
    s := Spawns(P, s, n, last);
    s := Returns(P, s, n, last);
  }

  /** The others that were notified swallow their notifications, one after the other. */
  lemma {:induction false} OthersSwallow(P: State -> bool, s: State, n: nat, last: nat, k: nat) returns (g: State)
    requires Closed(P) && P(s) && !s.stored && s.shared.permits > 0 && n in s.shared.assignedTo
    requires last < |s.tasks| && Sleeper(s.tasks[last]) && k <= |s.tasks|
    requires forall i :: 0 <= i < |s.tasks| ==> Settled(s.tasks[i], n)
    requires forall i :: 0 <= i < k ==> s.tasks[i].pc.Done? || Sleeper(s.tasks[i])
    ensures P(g) && Forgotten(g)
    decreases |s.tasks| - k
  {
    if k == |s.tasks| {
      g := s;
    } else if s.tasks[k].pc.Done? || Sleeper(s.tasks[k]) {
      g := OthersSwallow(P, s, n, last, k + 1);
    } else {
      g := Swallowed(P, s, k, last);
      g := OthersSwallow(P, g, n, last, k + 1);
    }
  }

  /** From two instances on, whatever number is kept idle. */
  lemma OverlapForgets(max: nat, minIdle: nat) returns (s: State)
    requires max >= 2
    ensures Reachable(Cold(max, minIdle), s) && Forgotten(s)
  {
    var s0, acts: seq<Action> := Cold(max, minIdle), [];
    assert Run([s0], acts) && [s0][|acts|] == s0;
    ReachableClosed(s0);
    var P: State -> bool := s => Reachable(s0, s);
    s := Crowd(P, max, minIdle);
    s := Notified4(P, s, max);
    s := FirstServes(P, s, max, max + 4);
    s := OthersSwallow(P, s, max, max + 4, 0);
  }

  // ---- When a wake-up can be lost ----

  /** A run of a pool of this size; `overlap` allows several acquires of one session at a time. */
  ghost predicate RunOf(max: nat, minIdle: nat, overlap: bool, r: seq<State>, acts: seq<Action>) {
    && Run(r, acts) && r[0].max == max && r[0].minIdle == minIdle
    && (overlap || forall i :: 0 <= i < |r| ==> NoOverlap(r[i]))
  }

  lemma NothingLost(max: nat, minIdle: nat, overlap: bool, r: seq<State>, acts: seq<Action>)
    requires RunOf(max, minIdle, overlap, r, acts) && !(overlap && max >= 2)
    ensures NoLostWakeup(r[|acts|])
  {
    if overlap { SmallPools(r, acts, |acts|); } else { DisjointAcquires(r, acts, |acts|); }
  }

  /** A wake-up can be lost, and a caller even be forgotten for good, exactly if acquires of one session may overlap
      and the pool has two instances or more; how many are kept idle does not matter. */
  lemma LostWakeupIff(max: nat, minIdle: nat, overlap: bool)
    ensures (exists r, acts :: RunOf(max, minIdle, overlap, r, acts) && !NoLostWakeup(r[|acts|]))
            <==> overlap && max >= 2
    ensures (exists r, acts :: RunOf(max, minIdle, overlap, r, acts) && Forgotten(r[|acts|]))
            <==> overlap && max >= 2
  {
    if overlap && max >= 2 {
      var s := OverlapForgets(max, minIdle);
      var r, acts :| Run(r, acts) && r[0] == Cold(max, minIdle) && r[|acts|] == s;
      ForgottenIsLost(s);
      assert RunOf(max, minIdle, overlap, r, acts);
    } else {
      forall r, acts | RunOf(max, minIdle, overlap, r, acts) ensures NoLostWakeup(r[|acts|]) && !Forgotten(r[|acts|]) {
        NothingLost(max, minIdle, overlap, r, acts);
        if Forgotten(r[|acts|]) { ForgottenIsLost(r[|acts|]); }
      }
    }
  }
}
