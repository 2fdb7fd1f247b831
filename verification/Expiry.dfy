/**
 Expired reservations are let go. The reconciler's API calls interleave with everyone else's
 here; a reconcile succeeds when the write it ends with is stored. Two successful ones are enough
 in any run, and in a calm run exactly one release is committed meanwhile.
 */
module Expiry {
  import opened Quantities
  import opened Availability
  import opened Decision
  import opened Protocol
  import opened History
  import opened Invariant
  import opened Safety
  import opened Calm

  // ----- where a held reservation stands -----

  predicate Stored(s: State, rid: nat) {
    rid < |s.reservations| && |s.reservations[rid].versions| > 0
  }

  function Newest(s: State, rid: nat): Reservation
    requires Stored(s, rid)
  {
    Last(s.reservations[rid].versions)
  }

  /** Held, and past its deadline at `now`. */
  predicate Overdue(s: State, rid: nat, now: int) {
    Stored(s, rid) && HeldUnits(Newest(s, rid)) == 1 && Expired(Newest(s, rid), now)
  }

  /** Released, or deleted and gone. */
  predicate LetGo(s: State, rid: nat) {
    Stored(s, rid) && (Newest(s, rid).gone || Newest(s, rid).phase == Released)
  }

  /** How far a held reservation is on its way: Reserved, Active, let go. */
  function Progress(s: State, rid: nat): nat
    requires Stored(s, rid)
  {
    if LetGo(s, rid) then 3 else Rank(Newest(s, rid).phase)
  }

  /** The reconciler's clock reads `now` or later. */
  predicate NotBefore(e: Event, now: int) {
    match e
    case ReconcileBegin(_, _, t, _) => now <= t
    case Finalize(_, _, t, _) => now <= t
    case _ => true
  }

  predicate AllNotBefore(events: seq<Event>, now: int) {
    forall i :: 0 <= i < |events| ==> NotBefore(events[i], now)
  }

  /** A later state: reachable, and with at least the versions of the earlier one. */
  ghost predicate Later(s: State, s': State, rid: nat) {
    && Reachable(s') && Stored(s, rid) && Stored(s', rid)
    && s.reservations[rid].versions <= s'.reservations[rid].versions
  }

  lemma ExecIsLater(s: State, events: seq<Event>, s': State, rid: nat)
    requires Reachable(s) && Stored(s, rid) && Ran(s, events, s')
    ensures Later(s, s', rid)
  {
    RanLeads(INIT, s, events, s');
    assert Exec(s, events) == s';
    VersionsStay(s, events, rid);
  }

  lemma ExecRan(s: State, events: seq<Event>)
    ensures Ran(s, events, Exec(s, events))
  {
  }

  /** Whatever happens, an overdue reservation stays overdue until it is let go, and only moves forward. */
  lemma OverdueUntilLetGo(s: State, s': State, rid: nat, now: int)
    requires Later(s, s', rid) && (Overdue(s, rid, now) || LetGo(s, rid))
    ensures (Overdue(s', rid, now) || LetGo(s', rid)) && Progress(s, rid) <= Progress(s', rid)
  {
    ReachableLifeline(s', rid);
    var v := s'.reservations[rid].versions;
    var i, j := |s.reservations[rid].versions| - 1, |v| - 1;
    assert v[i] == Newest(s, rid);
    LifelineForward(v, i, j);
    if !v[i].gone && HeldPhase(v[i].phase) {
      HeldOnward(v, i, j);
    }
  }

  // ----- one reconcile -----

  /** What keeper w may be about to do once it has found its reservation overdue. */
  predicate Heading(pc: KeeperPc, r: Reservation) {
    match pc
    case Finalizing => !r.deleting
    case FreeReading => true
    case FreeWriting(_, _) => true
    case Unfinalizing => r.deleting
    case Marking(p) => p == Released || (p == Active && r.phase == Reserved)
    case _ => false
  }

  predicate Tracked(s: State, w: nat, rid: nat, now: int) {
    && KeeperAt(s, w) && s.workers[w].rid == rid && !s.workers[w].handler
    && (s.workers[w].pc != Idle ==>
          && HeldPhase(s.workers[w].snap.phase) && !s.workers[w].snap.gone && Expired(s.workers[w].snap, now)
          && Heading(s.workers[w].pc, s.workers[w].snap))
  }

  /** A reconcile that reads an overdue reservation sets out to promote or release it. */
  lemma BeginTracked(s: State, rid: nat, t: int, view: seq<Candidate>, now: int)
    requires Reachable(s) && Overdue(s, rid, now) && now <= t
    ensures var s' := Next(s, ReconcileBegin(rid, |s.reservations[rid].versions| - 1, t, view));
      |s'.workers| == |s.workers| + 1 && Tracked(s', |s.workers|, rid, now) && s'.workers[|s.workers|].pc != Idle
  {
    ReachableLifeline(s, rid);
    var v := s.reservations[rid].versions;
    LifelineForward(v, |v| - 1, |v| - 1);
  }

  lemma OwnReadTracked(s: State, e: Event, w: nat, rid: nat, now: int)
    requires Reachable(s) && Tracked(s, w, rid, now) && Actor(e) == Some(w)
    requires e.LockRead? || e.LockGiveUp? || e.LockCommit? || e.FreeRead? || e.Abort? || e.Retarget?
    ensures Tracked(Next(s, e), w, rid, now)
  {
  }

  lemma OwnWriteTracked(s: State, e: Event, w: nat, rid: nat, now: int)
    requires Reachable(s) && Tracked(s, w, rid, now) && Actor(e) == Some(w)
    requires e.FreeCommit? || e.Mark? || e.Unfinalize?
    ensures Tracked(Next(s, e), w, rid, now)
  {
  }

  lemma OwnFinalizeTracked(s: State, w: nat, ok: bool, t: int, view: seq<Candidate>, rid: nat, now: int)
    requires Reachable(s) && Tracked(s, w, rid, now) && now <= t
    ensures Tracked(DoFinalize(s, w, ok, t, view), w, rid, now)
  {
    ReachableKeeps(s);
    SnapBacked(s, w);
  }

  lemma StepTracked(s: State, e: Event, w: nat, rid: nat, now: int)
    requires Reachable(s) && Tracked(s, w, rid, now) && NotBefore(e, now)
    ensures Tracked(Next(s, e), w, rid, now)
  {
    if Actor(e) != Some(w) {
      OthersKeepWorker(s, e, w);
      VersionsPersist(s, e, rid);
    } else {
      match e
      case Finalize(_, ok, t, view) => OwnFinalizeTracked(s, w, ok, t, view, rid, now);
      case FreeCommit(_) => OwnWriteTracked(s, e, w, rid, now);
      case Mark(_, _, _) => OwnWriteTracked(s, e, w, rid, now);
      case Unfinalize(_) => OwnWriteTracked(s, e, w, rid, now);
      case LockRead(_, _) => OwnReadTracked(s, e, w, rid, now);
      case LockGiveUp(_) => OwnReadTracked(s, e, w, rid, now);
      case LockCommit(_) => OwnReadTracked(s, e, w, rid, now);
      case FreeRead(_, _) => OwnReadTracked(s, e, w, rid, now);
      case Abort(_) => OwnReadTracked(s, e, w, rid, now);
      case Retarget(_) => OwnReadTracked(s, e, w, rid, now);
      case _ =>
    }
  }

  /** Event e is the write keeper w ends with, and it is stored. */
  predicate ClosingWrite(s: State, e: Event, w: nat) {
    && KeeperAt(s, w) && Current(s, s.workers[w])
    && ((e.Mark? && e.w == w && e.ok && s.workers[w].pc.Marking?)
        || (e == Unfinalize(w) && s.workers[w].pc == Unfinalizing))
  }

  /** That write promotes or lets go: it never leaves the reservation where it was. */
  lemma ClosingWriteMoves(s: State, e: Event, w: nat, rid: nat, now: int)
    requires Reachable(s) && Tracked(s, w, rid, now) && ClosingWrite(s, e, w)
    ensures Stored(s, rid) && Stored(Next(s, e), rid)
    ensures Progress(Next(s, e), rid) > Progress(s, rid)
  {
    ReachableKeeps(s);
    SnapBacked(s, w);
    assert s.workers[w].snap == Newest(s, rid);
    if e.Mark? {
      assert Newest(Next(s, e), rid) == WithPhase(s.workers[w].snap, s.workers[w].pc.phase, e.now);
    } else {
      assert Newest(Next(s, e), rid) == s.workers[w].snap.(finalizer := false, gone := true);
    }
  }

  /** The state after the first i events. */
  function At(s: State, events: seq<Event>, i: nat): State
    requires i <= |events|
  {
    Exec(s, events[..i])
  }

  lemma AtStep(s: State, events: seq<Event>, i: nat)
    requires i < |events|
    ensures At(s, events, i + 1) == Next(At(s, events, i), events[i])
  {
    assert events[..i + 1] == events[..i] + [events[i]];
    ExecSnoc(s, events[..i], events[i]);
  }

  lemma AtReachable(s: State, events: seq<Event>, i: nat)
    requires Reachable(s) && i <= |events|
    ensures Reachable(At(s, events, i))
  {
    assert Ran(s, events[..i], At(s, events, i));
    RanLeads(INIT, s, events[..i], At(s, events, i));
  }

  /**
   The reconcile of rid that begins with event i, on the current version, succeeds: it finds
   nothing to do, or event j is the write it ends with, and is stored.
   */
  predicate SucceedsAt(s: State, events: seq<Event>, rid: nat, i: nat, j: nat) {
    && i < |events| && events[i].ReconcileBegin? && events[i].rid == rid
    && rid < |At(s, events, i).reservations|
    && events[i].ver + 1 == |At(s, events, i).reservations[rid].versions|
    && (At(s, events, i + 1) == At(s, events, i)
        || (i < j < |events| && ClosingWrite(At(s, events, j), events[j], |At(s, events, i).workers|)))
  }

  /** Some reconcile of rid begins and succeeds during the events. */
  ghost predicate Reconciles(s: State, events: seq<Event>, rid: nat) {
    exists i: nat, j: nat :: SucceedsAt(s, events, rid, i, j)
  }

  lemma {:induction false} TrackedUpTo(s: State, events: seq<Event>, i: nat, j: nat, w: nat, rid: nat, now: int)
    requires Reachable(s) && i <= j <= |events| && AllNotBefore(events, now)
    requires Tracked(At(s, events, i), w, rid, now)
    ensures Tracked(At(s, events, j), w, rid, now)
    decreases j
  {
    if i < j {
      TrackedUpTo(s, events, i, j - 1, w, rid, now);
      AtReachable(s, events, j - 1);
      AtStep(s, events, j - 1);
      StepTracked(At(s, events, j - 1), events[j - 1], w, rid, now);
    }
  }

  lemma AtRan(s: State, events: seq<Event>, i: nat, j: nat)
    requires i <= j <= |events|
    ensures Ran(At(s, events, i), events[i..j], At(s, events, j))
  {
    ExecConcat(s, events[..i], events[i..j]);
    assert events[..i] + events[i..j] == events[..j];
  }

  lemma AtIsLater(s: State, events: seq<Event>, i: nat, j: nat, rid: nat)
    requires Reachable(s) && i <= j <= |events| && Stored(At(s, events, i), rid)
    ensures Later(At(s, events, i), At(s, events, j), rid)
  {
    AtReachable(s, events, i);
    AtRan(s, events, i, j);
    ExecIsLater(At(s, events, i), events[i..j], At(s, events, j), rid);
  }

  /** The keeper that began with event i on state x ends with event j on state y, and z follows. */
  lemma SuccessMovesOn(s: State, events: seq<Event>, rid: nat, i: nat, j: nat, now: int)
    requires Reachable(s) && AllNotBefore(events, now) && SucceedsAt(s, events, rid, i, j)
    requires Overdue(At(s, events, i), rid, now)
    ensures i < j < |events| && Stored(At(s, events, j + 1), rid)
    ensures Progress(At(s, events, j + 1), rid) > Progress(At(s, events, i), rid)
  {
    var x := At(s, events, i);
    AtReachable(s, events, i);
    BeginTracked(x, rid, events[i].now, events[i].view, now);
    AtStep(s, events, i);
    TrackedUpTo(s, events, i + 1, j, |x.workers|, rid, now);
    AtReachable(s, events, j);
    ClosingWriteMoves(At(s, events, j), events[j], |x.workers|, rid, now);
    AtStep(s, events, j);
    AtIsLater(s, events, i, j, rid);
    OverdueUntilLetGo(x, At(s, events, j), rid, now);
  }

  /** However others interleave with it, one successful reconcile moves an overdue reservation on, or it is let go. */
  lemma OneReconcileMovesOn(s: State, events: seq<Event>, s': State, rid: nat, now: int)
    requires Reachable(s) && (Overdue(s, rid, now) || LetGo(s, rid))
    requires Ran(s, events, s') && AllNotBefore(events, now) && Reconciles(s, events, rid)
    ensures Reachable(s') && (Overdue(s', rid, now) || LetGo(s', rid))
    ensures LetGo(s', rid) || Progress(s', rid) > Progress(s, rid)
  {
    ExecIsLater(s, events, s', rid);
    OverdueUntilLetGo(s, s', rid, now);
    var i: nat, j: nat :| SucceedsAt(s, events, rid, i, j);
    MovesOnBy(s, events, rid, i, j, now);
    assert At(s, events, |events|) == s' by {
      assert events[..|events|] == events;
      assert Exec(s, events) == s';
    }
  }

  lemma MovesOnBy(s: State, events: seq<Event>, rid: nat, i: nat, j: nat, now: int)
    requires Reachable(s) && (Overdue(s, rid, now) || LetGo(s, rid))
    requires AllNotBefore(events, now) && SucceedsAt(s, events, rid, i, j)
    ensures var s' := At(s, events, |events|);
      Stored(s', rid) && (LetGo(s', rid) || Progress(s', rid) > Progress(s, rid))
  {
    var x := At(s, events, i);
    assert At(s, events, 0) == s;
    AtIsLater(s, events, 0, i, rid);
    OverdueUntilLetGo(s, x, rid, now);
    AtIsLater(s, events, i, |events|, rid);
    OverdueUntilLetGo(x, At(s, events, |events|), rid, now);
    if !LetGo(x, rid) {
      SuccessMovesOn(s, events, rid, i, j, now);
      AtIsLater(s, events, i, j + 1, rid);
      OverdueUntilLetGo(x, At(s, events, j + 1), rid, now);
      AtIsLater(s, events, j + 1, |events|, rid);
      OverdueUntilLetGo(At(s, events, j + 1), At(s, events, |events|), rid, now);
    }
  }

  /**
   In any run: two successful reconciles at or after the deadline, with arbitrary steps of others
   before, between and during them, and whatever conditions the requester sets, let it go.
   */
  lemma TwoReconcilesLetGo(s: State, one: seq<Event>, m: State, two: seq<Event>, s': State, rid: nat, now: int)
    requires Reachable(s) && Overdue(s, rid, now)
    requires Ran(s, one, m) && AllNotBefore(one, now) && Reconciles(s, one, rid)
    requires Ran(m, two, s') && AllNotBefore(two, now) && Reconciles(m, two, rid)
    ensures LetGo(s', rid)
  {
    OneReconcileMovesOn(s, one, m, rid, now);
    OneReconcileMovesOn(m, two, s', rid, now);
  }

  // ----- what is committed meanwhile -----

  predicate Locks(s: State, e: Event, rid: nat) {
    && e.LockCommit? && KeeperAt(s, e.w) && s.workers[e.w].rid == rid
    && s.workers[e.w].pc.LockWriting? && Exists(s, s.workers[e.w].snap.target)
    && s.workers[e.w].pc.base + 1 == |s.clusters[s.workers[e.w].snap.target]|
  }

  predicate Frees(s: State, e: Event, rid: nat) {
    && e.FreeCommit? && KeeperAt(s, e.w) && s.workers[e.w].rid == rid
    && s.workers[e.w].pc.FreeWriting? && Exists(s, s.workers[e.w].snap.target)
    && s.workers[e.w].pc.base + 1 == |s.clusters[s.workers[e.w].snap.target]|
  }

  /** How many locks were committed for rid during the events. */
  function LocksIn(s: State, events: seq<Event>, rid: nat): nat {
    if |events| == 0 then 0
    else LocksIn(s, events[..|events| - 1], rid)
         + (if Locks(Exec(s, events[..|events| - 1]), Last(events), rid) then 1 else 0)
  }

  /** How many releases. */
  function FreesIn(s: State, events: seq<Event>, rid: nat): nat {
    if |events| == 0 then 0
    else FreesIn(s, events[..|events| - 1], rid)
         + (if Frees(Exec(s, events[..|events| - 1]), Last(events), rid) then 1 else 0)
  }

  lemma StepMovesUnits(s: State, e: Event, rid: nat)
    requires Stored(s, rid)
    ensures Stored(Next(s, e), rid)
    ensures UnitsOf(Next(s, e).reservations[rid]) == UnitsOf(s.reservations[rid])
      + (if Locks(s, e, rid) then 1 else 0) - (if Frees(s, e, rid) then 1 else 0)
  {
    VersionsPersist(s, e, rid);
    if e.Mark? {
      MarkMovesNoUnits(s, e.w, e.ok, e.now, rid);
    } else if e.Finalize? {
      FinalizeMovesNoUnits(s, e, rid);
    }
  }

  lemma MarkMovesNoUnits(s: State, w: nat, ok: bool, now: int, rid: nat)
    requires Stored(s, rid)
    ensures Stored(DoMark(s, w, ok, now), rid)
    ensures UnitsOf(DoMark(s, w, ok, now).reservations[rid]) == UnitsOf(s.reservations[rid])
  {
  }

  lemma FinalizeMovesNoUnits(s: State, e: Event, rid: nat)
    requires Stored(s, rid) && e.Finalize?
    ensures Stored(Next(s, e), rid)
    ensures UnitsOf(Next(s, e).reservations[rid]) == UnitsOf(s.reservations[rid])
  {
  }

  /** In any run, what a reservation accounts for is the locks minus the releases committed for it. */
  lemma {:induction false} UnitsAreNetCommits(s: State, events: seq<Event>, rid: nat)
    requires Stored(s, rid)
    ensures Stored(Exec(s, events), rid)
    ensures UnitsOf(Exec(s, events).reservations[rid])
         == UnitsOf(s.reservations[rid]) + LocksIn(s, events, rid) - FreesIn(s, events, rid)
  {
    if |events| > 0 {
      UnitsAreNetCommits(s, events[..|events| - 1], rid);
      StepMovesUnits(Exec(s, events[..|events| - 1]), Last(events), rid);
    }
  }

  // ----- calm continuations -----

  predicate CalmFrom(s: State, events: seq<Event>) {
    |events| == 0
    || (CalmFrom(s, events[..|events| - 1]) && CalmEvent(Exec(s, events[..|events| - 1]), Last(events)))
  }

  lemma {:induction false} CalmGoesOn(s: State, events: seq<Event>)
    requires CalmlyReached(s) && CalmFrom(s, events)
    ensures CalmlyReached(Exec(s, events))
  {
    if |events| > 0 {
      var before := events[..|events| - 1];
      CalmGoesOn(s, before);
      CalmStep(Exec(s, before), Last(events));
    }
  }

  lemma CalmStep(s: State, e: Event)
    requires CalmlyReached(s) && CalmEvent(s, e)
    ensures CalmlyReached(Next(s, e))
  {
    var run: seq<Event> :| CalmTo(run, s);
    assert CalmRun(run) && Exec(INIT, run) == s;
    ExecSnoc(INIT, run, e);
    assert (run + [e])[..|run|] == run;
    assert CalmTo(run + [e], Next(s, e));
  }

  /** In a calm state nobody locks for a reservation that is past its open phase. */
  lemma NoLockOnceHeld(s: State, e: Event, rid: nat)
    requires CalmlyReached(s) && Stored(s, rid) && Rank(Newest(s, rid).phase) > 0
    ensures !Locks(s, e, rid)
  {
    CalmlyReachedKeeps(s);
    if Locks(s, e, rid) {
      SnapBacked(s, e.w);
      assert Busy(s.workers[e.w]);
    }
  }

  lemma {:induction false} NoLocksOnceHeld(s: State, events: seq<Event>, rid: nat)
    requires CalmlyReached(s) && CalmFrom(s, events) && Stored(s, rid) && Rank(Newest(s, rid).phase) > 0
    ensures LocksIn(s, events, rid) == 0
  {
    if |events| > 0 {
      var before := events[..|events| - 1];
      NoLocksOnceHeld(s, before, rid);
      CalmGoesOn(s, before);
      CalmlyReachedKeeps(s);
      ExecRan(s, before);
      ExecIsLater(s, before, Exec(s, before), rid);
      RankStays(s, Exec(s, before), rid);
      NoLockOnceHeld(Exec(s, before), Last(events), rid);
    }
  }

  lemma RankStays(s: State, s': State, rid: nat)
    requires Later(s, s', rid)
    ensures Rank(Newest(s, rid).phase) <= Rank(Newest(s', rid).phase)
  {
    ReachableLifeline(s', rid);
    var v := s'.reservations[rid].versions;
    assert v[|s.reservations[rid].versions| - 1] == Newest(s, rid);
    LifelineForward(v, |s.reservations[rid].versions| - 1, |v| - 1);
  }

  /** A committed release is one new version of the reservation's own target, taking off exactly its request. */
  lemma FreesOnTarget(s: State, e: Event, rid: nat)
    requires CalmlyReached(s) && Frees(s, e, rid)
    ensures var c := Newest(s, rid).target;
      && Exists(s, c) && Last(s.clusters[c]).advert.metrics.reserved.Some?
      && GpuComplete(Last(s.clusters[c]).advert.metrics)
      && Next(s, e).clusters == s.clusters[c := s.clusters[c] + [Version(
           Last(s.clusters[c]).advert.(metrics := Freed(Last(s.clusters[c]).advert.metrics, Newest(s, rid).request)),
           FreedBy(e.w, Newest(s, rid).request))]]
  {
    CalmlyReachedKeeps(s);
    SnapBacked(s, e.w);
    assert Busy(s.workers[e.w]);
    assert s.workers[e.w].snap == Newest(s, rid);
  }

  lemma LetGoHoldsNothing(s: State, rid: nat)
    requires CalmlyReached(s) && LetGo(s, rid)
    ensures UnitsOf(s.reservations[rid]) == 0
  {
    CalmlyReachedKeeps(s);
    UnitsPinned(s, rid);
    ReachableLifeline(s, rid);
    if BusyOn(s, rid) {
      var w :| 0 <= w < |s.workers| && Busy(s.workers[w]) && s.workers[w].rid == rid;
      SnapBacked(s, w);
      assert s.workers[w].snap == Newest(s, rid);
    }
  }

  /**
   In a calm run with arbitrary steps of others before, between and during them, two successful
   reconciles at or after the deadline let an overdue reservation go, no lock is committed for it
   meanwhile, and its amount leaves the ledger exactly once.
   */
  lemma ExpiredReleasedInTwo(s: State, one: seq<Event>, m: State, two: seq<Event>, s': State, rid: nat, now: int)
    requires CalmlyReached(s) && Overdue(s, rid, now) && CalmFrom(s, one + two)
    requires Ran(s, one, m) && AllNotBefore(one, now) && Reconciles(s, one, rid)
    requires Ran(m, two, s') && AllNotBefore(two, now) && Reconciles(m, two, rid)
    ensures LetGo(s', rid) && UnitsOf(s'.reservations[rid]) == 0
    ensures LocksIn(s, one + two, rid) == 0 && FreesIn(s, one + two, rid) == UnitsOf(s.reservations[rid])
    ensures !BusyOn(s, rid) ==> FreesIn(s, one + two, rid) == 1
  {
    CalmlyReachedKeeps(s);
    TwoReconcilesLetGo(s, one, m, two, s', rid, now);
    NoLocksOnceHeld(s, one + two, rid);
    CalmGoesOn(s, one + two);
    assert Exec(s, one + two) == s' by {
      assert Exec(s, one) == m && Exec(m, two) == s';
      ExecConcat(s, one, two);
    }
    LetGoHoldsNothing(s', rid);
    UnitsAreNetCommits(s, one + two, rid);
    UnitsPinned(s, rid);
  }

  /** A released reservation is left alone by every later reconcile. */
  lemma ReleasedIsLeftAlone(s: State, rid: nat, now: int, view: seq<Candidate>)
    requires Reachable(s) && Stored(s, rid) && Newest(s, rid).phase == Released
    requires Newest(s, rid).finalizer && !Newest(s, rid).deleting
    ensures DoReconcileBegin(s, rid, |s.reservations[rid].versions| - 1, now, view) == s
  {
    ReachableLifeline(s, rid);
    var v := s.reservations[rid].versions;
    LifelineForward(v, |v| - 1, |v| - 1);
  }
}
