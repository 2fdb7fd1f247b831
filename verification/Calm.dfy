/**
 Calm runs: each reservation is worked on by one worker at a time, which read its
 current version, and nothing fails between a ledger commit and the status write
 that records it. In such runs the ledger is exactly the sum of the held requests
 plus the locks in flight minus the releases in flight.
 */
module Calm {
  import opened Quantities
  import opened Availability
  import opened Decision
  import opened Protocol
  import opened History
  import opened Invariant

  predicate Busy(wk: Worker) {
    wk.Keeper? && wk.pc != Idle
  }

  predicate BusyOn(s: State, rid: nat) {
    exists w :: 0 <= w < |s.workers| && Busy(s.workers[w]) && s.workers[w].rid == rid
  }

  predicate CalmEvent(s: State, e: Event) {
    match e
    case ReconcileBegin(rid, ver, _, _) =>
      !BusyOn(s, rid) && (rid < |s.reservations| ==> ver + 1 == |s.reservations[rid].versions|)
    case UserSignal(rid, _, _) => !BusyOn(s, rid)
    case UserDelete(rid) =>
      !BusyOn(s, rid)
      && (rid < |s.reservations| && |s.reservations[rid].versions| > 0 ==>
            Last(s.reservations[rid].versions).finalizer || HeldUnits(Last(s.reservations[rid].versions)) == 0)
    case Mark(_, ok, _) => ok
    case Abort(w) => w < |s.workers| && s.workers[w].Keeper? ==> InFlight(s.workers[w]) == 0
    case FreeRead(_, base) => base.Some?
    case _ => true
  }

  predicate CalmRun(events: seq<Event>) {
    |events| == 0
    || (CalmRun(events[..|events| - 1]) && CalmEvent(Exec(INIT, events[..|events| - 1]), Last(events)))
  }

  /** Commits in flight, in units of the request: +1 for an unmarked lock, -1 for an unmarked release. */
  function InFlight(wk: Worker): int
    requires wk.Keeper?
  {
    if wk.pc == Marking(Reserved) then 1
    else if wk.pc == Marking(Released) || wk.pc == Unfinalizing then -HeldUnits(wk.snap)
    else 0
  }

  ghost predicate CalmInv(s: State) {
    && (forall u, w :: 0 <= u < w < |s.workers| && Busy(s.workers[u]) && Busy(s.workers[w]) ==>
          s.workers[u].rid != s.workers[w].rid)
    && (forall w :: 0 <= w < |s.workers| && Busy(s.workers[w]) ==>
          && Current(s, s.workers[w])
          && s.reservations[s.workers[w].rid].owed == InFlight(s.workers[w]))
    && (forall i: nat :: i < |s.reservations| && s.reservations[i].owed != 0 ==> BusyOn(s, i))
  }

  /** A step of busy keeper w touches its own reservation only. */
  lemma KeeperStep(s: State, s': State, w: nat, rec: Record)
    requires CalmInv(s) && KeeperAt(s, w) && Busy(s.workers[w]) && w < |s'.workers|
    requires s'.workers == s.workers[w := s'.workers[w]]
    requires s'.workers[w].Keeper? && s'.workers[w].rid == s.workers[w].rid
    requires s'.reservations == s.reservations[s.workers[w].rid := rec]
    requires s'.workers[w].pc != Idle ==>
      s'.workers[w].ver + 1 == |rec.versions| && rec.owed == InFlight(s'.workers[w])
    requires s'.workers[w].pc == Idle ==> rec.owed == 0
    ensures CalmInv(s')
  {
    forall i: nat | i < |s'.reservations| && s'.reservations[i].owed != 0
      ensures BusyOn(s', i)
    {
      if i == s.workers[w].rid {
        assert Busy(s'.workers[w]);
      } else {
        var u :| 0 <= u < |s.workers| && Busy(s.workers[u]) && s.workers[u].rid == i;
        assert s'.workers[u] == s.workers[u];
      }
    }
  }

  lemma PutKeeperStep(s: State, w: nat, wk: Worker)
    requires CalmInv(s) && KeeperAt(s, w) && Busy(s.workers[w])
    requires wk.Keeper? && wk.rid == s.workers[w].rid && wk.ver == s.workers[w].ver
    requires InFlight(s.workers[w]) == (if wk.pc == Idle then 0 else InFlight(wk))
    ensures CalmInv(PutWorker(s, w, wk))
  {
    var rid := s.workers[w].rid;
    assert s.reservations[rid := s.reservations[rid]] == s.reservations;
    KeeperStep(s, PutWorker(s, w, wk), w, s.reservations[rid]);
  }

  /** Publishers and recalculators do not touch reservations. */
  lemma OtherStep(s: State, s': State)
    requires CalmInv(s) && s'.reservations == s.reservations
    requires |s.workers| <= |s'.workers|
    requires forall w :: 0 <= w < |s'.workers| ==>
      if w < |s.workers| && s.workers[w].Keeper? then s'.workers[w] == s.workers[w] else !s'.workers[w].Keeper?
    ensures CalmInv(s')
  {
    forall i: nat | i < |s'.reservations| && s'.reservations[i].owed != 0
      ensures BusyOn(s', i)
    {
      var u :| 0 <= u < |s.workers| && Busy(s.workers[u]) && s.workers[u].rid == i;
      assert s'.workers[u] == s.workers[u];
    }
  }

  lemma WriteStep(s: State, w: nat, r: Reservation, pc: KeeperPc)
    requires Inv(s) && CalmInv(s) && KeeperAt(s, w) && Busy(s.workers[w])
    requires InFlight(s.workers[w]) + HeldUnits(s.workers[w].snap) - HeldUnits(r)
          == if pc == Idle then 0 else InFlight(s.workers[w].(pc := pc, snap := r))
    ensures CalmInv(WriteReservation(s, w, r, pc))
  {
    var wk := s.workers[w];
    assert WorkerOK(s.clusters, s.reservations, w, wk);
    assert wk.snap == Last(s.reservations[wk.rid].versions);
    var s' := WriteReservation(s, w, r, pc);
    KeeperStep(s, s', w, s'.reservations[wk.rid]);
  }

  /** A new reservation, a new keeper, or both. */
  lemma AppendStep(s: State, s': State)
    requires CalmInv(s)
    requires |s.workers| <= |s'.workers| <= |s.workers| + 1 && s'.workers[..|s.workers|] == s.workers
    requires |s.reservations| <= |s'.reservations| && s'.reservations[..|s.reservations|] == s.reservations
    requires forall i :: |s.reservations| <= i < |s'.reservations| ==> s'.reservations[i].owed == 0
    requires |s'.workers| > |s.workers| && Busy(Last(s'.workers)) ==>
      && !BusyOn(s, Last(s'.workers).rid)
      && Current(s', Last(s'.workers)) && InFlight(Last(s'.workers)) == 0
      && (Last(s'.workers).rid < |s.reservations| ==> s.reservations[Last(s'.workers).rid].owed == 0)
    ensures CalmInv(s')
  {
    forall w | 0 <= w < |s.workers| ensures s'.workers[w] == s.workers[w] {
      assert s'.workers[..|s.workers|][w] == s'.workers[w];
    }
    forall i | 0 <= i < |s.reservations| ensures s'.reservations[i] == s.reservations[i] {
      assert s'.reservations[..|s.reservations|][i] == s'.reservations[i];
    }
    forall i: nat | i < |s'.reservations| && s'.reservations[i].owed != 0
      ensures BusyOn(s', i)
    {
      var u :| 0 <= u < |s.workers| && Busy(s.workers[u]) && s.workers[u].rid == i;
      assert s'.workers[u] == s.workers[u];
    }
    forall w | 0 <= w < |s.workers| && Busy(s.workers[w])
      ensures BusyOn(s, s.workers[w].rid)
    {
    }
  }

  lemma BeginCalm(s: State, e: Event)
    requires Inv(s) && CalmInv(s) && CalmEvent(s, e)
    requires e.UserCreate? || e.HandlerBegin? || e.ReconcileBegin?
    ensures CalmInv(Next(s, e))
  {
    var s' := Next(s, e);
    if s' != s {
      AppendStep(s, s');
    }
  }

  lemma UserCalm(s: State, e: Event)
    requires Inv(s) && CalmInv(s) && CalmEvent(s, e)
    requires e.UserSignal? || e.UserDelete?
    ensures CalmInv(Next(s, e))
  {
    var s' := Next(s, e);
    if s' != s {
      assert s.reservations[e.rid].owed == 0;
      forall w | 0 <= w < |s'.workers| && Busy(s'.workers[w])
        ensures s'.workers[w].rid != e.rid
      {
        assert BusyOn(s, s.workers[w].rid);
      }
      forall i: nat | i < |s'.reservations| && s'.reservations[i].owed != 0
        ensures BusyOn(s', i)
      {
        assert i != e.rid;
        var u :| 0 <= u < |s.workers| && Busy(s.workers[u]) && s.workers[u].rid == i;
        assert s'.workers[u] == s.workers[u];
      }
    }
  }

  lemma FinalizeCalm(s: State, w: nat, ok: bool, now: int, view: seq<Candidate>)
    requires Inv(s) && CalmInv(s)
    ensures CalmInv(DoFinalize(s, w, ok, now, view))
  {
    if KeeperAt(s, w) && s.workers[w].pc == Finalizing {
      SnapBacked(s, w);
      var wk := s.workers[w];
      var s' := DoFinalize(s, w, ok, now, view);
      if ok && Current(s, wk) {
        WriteStep(s, w, wk.snap.(finalizer := true), s'.workers[w].pc);
      } else {
        PutKeeperStep(s, w, s'.workers[w]);
      }
    }
  }

  lemma RetargetCalm(s: State, w: nat)
    requires Inv(s) && CalmInv(s)
    ensures CalmInv(DoRetarget(s, w))
  {
    if KeeperAt(s, w) && s.workers[w].pc.Targeting? {
      WriteStep(s, w, s.workers[w].snap.(target := s.workers[w].pc.choice), LockReading);
    }
  }

  lemma UnfinalizeCalm(s: State, w: nat)
    requires Inv(s) && CalmInv(s)
    ensures CalmInv(DoUnfinalize(s, w))
  {
    if KeeperAt(s, w) && s.workers[w].pc == Unfinalizing {
      WriteStep(s, w, s.workers[w].snap.(finalizer := false, gone := true), Idle);
    }
  }

  lemma LockReadCalm(s: State, w: nat, base: Option<nat>)
    requires Inv(s) && CalmInv(s)
    ensures CalmInv(DoLockRead(s, w, base))
  {
    var s' := DoLockRead(s, w, base);
    if s' != s {
      SnapBacked(s, w);
      PutKeeperStep(s, w, s'.workers[w]);
    }
  }

  lemma FreeReadCalm(s: State, w: nat, base: Option<nat>)
    requires Inv(s) && CalmInv(s) && CalmEvent(s, FreeRead(w, base))
    ensures CalmInv(DoFreeRead(s, w, base))
  {
    var s' := DoFreeRead(s, w, base);
    if s' != s {
      SnapBacked(s, w);
      PutKeeperStep(s, w, s'.workers[w]);
    }
  }

  lemma GiveUpCalm(s: State, w: nat)
    requires Inv(s) && CalmInv(s)
    ensures CalmInv(DoLockGiveUp(s, w))
  {
    var s' := DoLockGiveUp(s, w);
    if s' != s {
      SnapBacked(s, w);
      PutKeeperStep(s, w, s'.workers[w]);
    }
  }

  lemma MarkCalm(s: State, w: nat, now: int)
    requires Inv(s) && CalmInv(s)
    ensures CalmInv(DoMark(s, w, true, now))
  {
    if KeeperAt(s, w) && s.workers[w].pc.Marking? {
      SnapBacked(s, w);
      var wk := s.workers[w];
      var p := wk.pc.phase;
      var r := WithPhase(wk.snap, p, now);
      WriteStep(s, w, r, Idle);
      var s1 := WriteReservation(s, w, r, Idle);
      var s' := DoMark(s, w, true, now);
      KeeperStep(s, s', w, s'.reservations[wk.rid]);
    }
  }

  lemma LockCommitCalm(s: State, w: nat)
    requires Inv(s) && CalmInv(s)
    ensures CalmInv(DoLockCommit(s, w))
  {
    var s' := DoLockCommit(s, w);
    if s' != s {
      SnapBacked(s, w);
      KeeperStep(s, s', w, s'.reservations[s.workers[w].rid]);
    }
  }

  lemma FreeCommitCalm(s: State, w: nat)
    requires Inv(s) && CalmInv(s)
    ensures CalmInv(DoFreeCommit(s, w))
  {
    var s' := DoFreeCommit(s, w);
    if s' != s {
      SnapBacked(s, w);
      KeeperStep(s, s', w, s'.reservations[s.workers[w].rid]);
    }
  }

  lemma AbortCalm(s: State, w: nat)
    requires Inv(s) && CalmInv(s) && CalmEvent(s, Abort(w))
    ensures CalmInv(DoAbort(s, w))
  {
    if w < |s.workers| {
      if Busy(s.workers[w]) {
        PutKeeperStep(s, w, s.workers[w].(pc := Idle));
      } else {
        OtherStep(s, DoAbort(s, w));
      }
    }
  }

  /** Posts and recalculations touch no reservation and no keeper. */
  lemma AdvertCalm(s: State, e: Event)
    requires Inv(s) && CalmInv(s)
    requires e.PublishBegin? || e.PostRead? || e.PostCommit? || e.RecalcBegin? || e.RecalcCommit? || e.StatusCommit?
    ensures CalmInv(Next(s, e))
  {
    OtherStep(s, Next(s, e));
  }

  lemma LedgerCalm(s: State, e: Event)
    requires Inv(s) && CalmInv(s) && CalmEvent(s, e)
    requires e.LockRead? || e.LockCommit? || e.LockGiveUp? || e.FreeRead? || e.FreeCommit? || e.Abort?
    ensures CalmInv(Next(s, e))
  {
    match e
    case LockRead(w, base) => LockReadCalm(s, w, base);
    case LockCommit(w) => LockCommitCalm(s, w);
    case LockGiveUp(w) => GiveUpCalm(s, w);
    case FreeRead(w, base) => FreeReadCalm(s, w, base);
    case FreeCommit(w) => FreeCommitCalm(s, w);
    case Abort(w) => AbortCalm(s, w);
  }

  lemma WriteCalm(s: State, e: Event)
    requires Inv(s) && CalmInv(s) && CalmEvent(s, e)
    requires e.Finalize? || e.Retarget? || e.Mark? || e.Unfinalize?
    ensures CalmInv(Next(s, e))
  {
    match e
    case Finalize(w, ok, now, view) => FinalizeCalm(s, w, ok, now, view);
    case Retarget(w) => RetargetCalm(s, w);
    case Mark(w, _, now) => MarkCalm(s, w, now);
    case Unfinalize(w) => UnfinalizeCalm(s, w);
  }

  lemma NextCalm(s: State, e: Event)
    requires Inv(s) && CalmInv(s) && CalmEvent(s, e)
    ensures CalmInv(Next(s, e))
  {
    if e.UserCreate? || e.HandlerBegin? || e.ReconcileBegin? {
      BeginCalm(s, e);
    } else if e.UserSignal? || e.UserDelete? {
      UserCalm(s, e);
    } else if e.Finalize? || e.Retarget? || e.Mark? || e.Unfinalize? {
      WriteCalm(s, e);
    } else if e.LockRead? || e.LockCommit? || e.LockGiveUp? || e.FreeRead? || e.FreeCommit? || e.Abort? {
      LedgerCalm(s, e);
    } else {
      AdvertCalm(s, e);
    }
  }

  lemma {:induction false} CalmRunKeeps(events: seq<Event>)
    requires CalmRun(events)
    ensures Inv(Exec(INIT, events)) && CalmInv(Exec(INIT, events))
  {
    EveryRunKeeps(events);
    if |events| > 0 {
      CalmRunKeeps(events[..|events| - 1]);
      NextCalm(Exec(INIT, events[..|events| - 1]), Last(events));
    }
  }

  /** The state some calm run ends in. */
  ghost predicate CalmlyReached(s: State) {
    exists events: seq<Event> :: CalmTo(events, s)
  }

  ghost predicate CalmTo(events: seq<Event>, s: State) {
    forall t {:trigger CalmRun(t)} :: t == events ==> CalmRun(t) && Exec(INIT, t) == s
  }

  lemma CalmlyReachedKeeps(s: State)
    requires CalmlyReached(s)
    ensures Inv(s) && CalmInv(s) && Reachable(s)
  {
    var events: seq<Event> :| CalmTo(events, s);
    assert CalmRun(events) && Exec(INIT, events) == s;
    CalmRunKeeps(events);
    assert Ran(INIT, events, s);
  }

  // ----- what calm runs guarantee -----

  /** The units a reservation accounts for, read off its phase and the worker busy on it. */
  lemma UnitsPinned(s: State, i: nat)
    requires Inv(s) && CalmInv(s) && i < |s.reservations|
    ensures RecordOK(s.reservations[i])
    ensures forall w :: 0 <= w < |s.workers| && Busy(s.workers[w]) && s.workers[w].rid == i ==>
      UnitsOf(s.reservations[i]) == HeldUnits(Last(s.reservations[i].versions)) + InFlight(s.workers[w])
    ensures !BusyOn(s, i) ==> UnitsOf(s.reservations[i]) == HeldUnits(Last(s.reservations[i].versions))
    ensures UnitsOf(s.reservations[i]) == 0 || UnitsOf(s.reservations[i]) == 1
    ensures UnitsOf(s.reservations[i]) == 1 ==> Last(s.reservations[i].versions).request.Positive()
  {
    var rec := s.reservations[i];
    assert RecordOK(rec);
    LifelineForward(rec.versions, |rec.versions| - 1, |rec.versions| - 1);
    if BusyOn(s, i) {
      var w :| 0 <= w < |s.workers| && Busy(s.workers[w]) && s.workers[w].rid == i;
      SnapBacked(s, w);
    }
  }

  predicate Counted(rec: Record) {
    && |rec.versions| > 0
    && (UnitsOf(rec) == 0 || UnitsOf(rec) == 1)
    && (UnitsOf(rec) == 1 ==> Last(rec.versions).request.Positive())
  }

  lemma {:induction false} SumCoversShares(recs: seq<Record>, c: ClusterId, k: Resource)
    requires forall i :: 0 <= i < |recs| ==> Counted(recs[i])
    ensures SumAt(recs, c, k) >= 0
    ensures forall i :: 0 <= i < |recs| ==> SumAt(recs, c, k) >= ShareAt(recs[i], c, k) >= 0
  {
    if |recs| > 0 {
      SumCoversShares(recs[..|recs| - 1], c, k);
    }
  }

  lemma AllCounted(s: State)
    requires Inv(s) && CalmInv(s)
    ensures forall i :: 0 <= i < |s.reservations| ==> Counted(s.reservations[i])
  {
    forall i: nat | i < |s.reservations| ensures Counted(s.reservations[i]) {
      UnitsPinned(s, i);
    }
  }

  /** In calm runs the stored ledger is never negative and covers every reservation it should. */
  lemma LedgerCovers(s: State, c: ClusterId, k: Resource)
    requires Inv(s) && CalmInv(s)
    ensures LedgerOf(s, c, k) == SumAt(s.reservations, c, k) >= 0
    ensures forall i :: 0 <= i < |s.reservations| ==> LedgerOf(s, c, k) >= ShareAt(s.reservations[i], c, k)
  {
    AllCounted(s);
    SumCoversShares(s.reservations, c, k);
  }

  /** What reservation i accounts for, read off its phase and whoever works on it. */
  predicate Accounted(s: State, i: nat)
    requires i < |s.reservations|
  {
    && Counted(s.reservations[i])
    && (!BusyOn(s, i) ==> UnitsOf(s.reservations[i]) == HeldUnits(Last(s.reservations[i].versions)))
    && (forall w :: 0 <= w < |s.workers| && Busy(s.workers[w]) && s.workers[w].rid == i ==>
          UnitsOf(s.reservations[i]) == HeldUnits(Last(s.reservations[i].versions)) + InFlight(s.workers[w]))
  }

  /**
   Conservation: the ledger is the sum of the requests held by phase, plus locks not yet marked,
   minus releases not yet marked; each reservation counts zero or one time, and nothing is negative.
   */
  lemma CalmConservation(s: State, c: ClusterId, k: Resource)
    requires CalmlyReached(s)
    ensures LedgerOf(s, c, k) == SumAt(s.reservations, c, k) >= 0
    ensures forall i :: 0 <= i < |s.reservations| ==> Accounted(s, i)
  {
    CalmlyReachedKeeps(s);
    LedgerCovers(s, c, k);
    forall i | 0 <= i < |s.reservations| ensures Accounted(s, i) {
      UnitsPinned(s, i);
    }
  }

  /** No status or finalizer write of a calm run meets a newer version. */
  lemma CalmWritesAreCurrent(s: State, w: nat)
    requires CalmlyReached(s) && w < |s.workers| && Busy(s.workers[w])
    ensures Current(s, s.workers[w])
  {
    CalmlyReachedKeeps(s);
  }

  lemma HeldIsLedgered(s: State, i: nat)
    requires Inv(s) && CalmInv(s) && i < |s.reservations|
    requires |s.reservations[i].versions| > 0 && UnitsOf(s.reservations[i]) == 1
    ensures var r := Last(s.reservations[i].versions);
      && Exists(s, r.target)
      && Last(s.clusters[r.target]).advert.metrics.reserved.Some?
      && r.request.AtMost(ReservedAmount(Last(s.clusters[r.target]).advert.metrics))
  {
    var r := Last(s.reservations[i].versions);
    UnitsPinned(s, i);
    LedgerCovers(s, r.target, Cpu);
    LedgerCovers(s, r.target, Memory);
    assert ShareAt(s.reservations[i], r.target, Cpu) == r.request.cpu;
    assert ShareAt(s.reservations[i], r.target, Memory) == r.request.memory;
  }

  /**
   At every release the current record has a ledger that covers the request. So a release that
   reads it finds a ledger, and one that commits leaves the ledger non-negative; for a read of an
   older version see Safety.ReleaseReadExactly.
   */
  lemma ReleaseIsCovered(s: State, w: nat)
    requires CalmlyReached(s)
    requires KeeperAt(s, w) && (s.workers[w].pc.FreeReading? || s.workers[w].pc.FreeWriting?)
    ensures var snap := s.workers[w].snap;
      && Exists(s, snap.target)
      && Last(s.clusters[snap.target]).advert.metrics.reserved.Some?
      && snap.request.AtMost(ReservedAmount(Last(s.clusters[snap.target]).advert.metrics))
  {
    CalmlyReachedKeeps(s);
    ReleaseFinds(s, w);
  }

  lemma ReleaseFinds(s: State, w: nat)
    requires Inv(s) && CalmInv(s)
    requires KeeperAt(s, w) && (s.workers[w].pc.FreeReading? || s.workers[w].pc.FreeWriting?)
    ensures var snap := s.workers[w].snap;
      && Exists(s, snap.target)
      && Last(s.clusters[snap.target]).advert.metrics.reserved.Some?
      && snap.request.AtMost(ReservedAmount(Last(s.clusters[snap.target]).advert.metrics))
  {
    var wk := s.workers[w];
    SnapBacked(s, w);
    assert Current(s, wk);
    assert wk.snap == Last(s.reservations[wk.rid].versions);
    UnitsPinned(s, wk.rid);
    HeldIsLedgered(s, wk.rid);
  }

  lemma {:induction false} NothingHeldSum(recs: seq<Record>, c: ClusterId, k: Resource)
    requires forall i :: 0 <= i < |recs| ==> |recs[i].versions| > 0 && UnitsOf(recs[i]) == 0
    ensures SumAt(recs, c, k) == 0
  {
    if |recs| > 0 {
      NothingHeldSum(recs[..|recs| - 1], c, k);
    }
  }

  predicate Quiet(s: State) {
    && (forall w :: 0 <= w < |s.workers| ==> !Busy(s.workers[w]))
    && (forall i :: 0 <= i < |s.reservations| && |s.reservations[i].versions| > 0 ==>
          HeldUnits(Last(s.reservations[i].versions)) == 0)
  }

  /** When every reservation is terminal or deleted and no worker is busy, every ledger is empty. */
  lemma AllTerminalMeansEmpty(s: State, c: ClusterId, k: Resource)
    requires CalmlyReached(s) && Quiet(s)
    ensures LedgerOf(s, c, k) == 0
  {
    CalmlyReachedKeeps(s);
    QuietLedger(s, c, k);
  }

  lemma QuietLedger(s: State, c: ClusterId, k: Resource)
    requires Inv(s) && CalmInv(s)
    requires Quiet(s)
    ensures LedgerOf(s, c, k) == 0
  {
    forall i: nat | i < |s.reservations|
      ensures |s.reservations[i].versions| > 0 && UnitsOf(s.reservations[i]) == 0
    {
      UnitsPinned(s, i);
    }
    NothingHeldSum(s.reservations, c, k);
  }
}
