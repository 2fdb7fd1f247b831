/**
 The inductive invariant of the protocol, kept by every event of every run:
 any number of workers, any interleaving, any staleness, any crash.
 */
module Invariant {
  import opened Quantities
  import opened Availability
  import opened Decision
  import opened Protocol
  import opened History

  // ----- the ledger as a sum over reservations -----

  /** Units of its request that reservation `rec` accounts for: its phase, plus what its phase does not show yet. */
  function UnitsOf(rec: Record): int
    requires |rec.versions| > 0
  {
    HeldUnits(Last(rec.versions)) + rec.owed
  }

  function ShareAt(rec: Record, c: ClusterId, k: Resource): int {
    if |rec.versions| > 0 && Last(rec.versions).target == c
    then UnitsOf(rec) * Of(Last(rec.versions).request, k)
    else 0
  }

  function SumAt(recs: seq<Record>, c: ClusterId, k: Resource): int {
    if |recs| == 0 then 0 else SumAt(recs[..|recs| - 1], c, k) + ShareAt(Last(recs), c, k)
  }

  function LedgerOf(s: State, c: ClusterId, k: Resource): int {
    if Exists(s, c) then Of(ReservedAmount(Last(s.clusters[c]).advert.metrics), k) else 0
  }

  lemma {:induction false} SumUpdate(recs: seq<Record>, i: nat, rec: Record, c: ClusterId, k: Resource)
    requires i < |recs|
    ensures SumAt(recs[i := rec], c, k) == SumAt(recs, c, k) - ShareAt(recs[i], c, k) + ShareAt(rec, c, k)
  {
    var n := |recs| - 1;
    if i == n {
      assert recs[i := rec][..n] == recs[..n];
    } else {
      SumUpdate(recs[..n], i, rec, c, k);
      assert recs[i := rec][..n] == recs[..n][i := rec];
    }
  }

  lemma SumSnoc(recs: seq<Record>, rec: Record, c: ClusterId, k: Resource)
    ensures SumAt(recs + [rec], c, k) == SumAt(recs, c, k) + ShareAt(rec, c, k)
  {
    assert (recs + [rec])[..|recs|] == recs;
  }

  // ----- the invariant -----

  predicate Ledgered(clusters: map<ClusterId, seq<Version>>, c: ClusterId) {
    c in clusters && |clusters[c]| > 0 && Last(clusters[c]).advert.metrics.reserved.Some?
  }

  ghost predicate KeeperOK(clusters: map<ClusterId, seq<Version>>, recs: seq<Record>, w: nat, wk: Worker)
    requires wk.Keeper?
  {
    var r := wk.snap;
    && wk.rid < |recs| && wk.ver < |recs[wk.rid].versions| && r == recs[wk.rid].versions[wk.ver]
    && (wk.lockedAt.Some? ==>
          && r.target in clusters
          && wk.lockedAt.value < |clusters[r.target]|
          && clusters[r.target][wk.lockedAt.value].origin == LockedBy(w, r.request))
    && (wk.handler ==> r.target != r.requester && ValidSpec(r))
    && (wk.answered ==> wk.handler && wk.lockedAt.Some?)
    && PcOK(clusters, wk)
  }

  /** What each program counter knows about the snapshot and the private copy. */
  predicate PcOK(clusters: map<ClusterId, seq<Version>>, wk: Worker)
    requires wk.Keeper?
  {
    var r := wk.snap;
    match wk.pc
    case Idle => true
    case Finalizing => !r.gone && wk.lockedAt.None? && (wk.handler ==> Open(r.phase))
    case Targeting(choice) =>
      !r.gone && Open(r.phase) && ValidSpec(r) && wk.lockedAt.None? && !wk.handler && r.target == NO_ID
    case LockReading => !r.gone && Open(r.phase) && ValidSpec(r) && wk.lockedAt.None?
    case LockWriting(base, copy) =>
      && !r.gone && Open(r.phase) && ValidSpec(r) && wk.lockedAt.None?
      && r.target in clusters && base < |clusters[r.target]|
      && LedgerStep(clusters[r.target][base], Version(copy, LockedBy(0, r.request)))
    case Marking(p) =>
      && !r.gone
      && (p == r.phase || MayFollow(r.phase, p)) && !(p == r.phase && HeldPhase(p))
      && (p == Reserved ==> wk.lockedAt.Some? && ValidSpec(r))
      && (p == Failed ==> wk.lockedAt.None?)
    case FreeReading => !r.gone && HeldPhase(r.phase) && wk.lockedAt.None?
    case FreeWriting(base, copy) =>
      && !r.gone && HeldPhase(r.phase) && wk.lockedAt.None?
      && r.target in clusters && base < |clusters[r.target]|
      && LedgerStep(clusters[r.target][base], Version(copy, FreedBy(0, r.request)))
    case Unfinalizing => !r.gone
  }

  predicate PublisherOK(clusters: map<ClusterId, seq<Version>>, wk: Worker)
    requires wk.Publisher?
  {
    && wk.cluster != NO_ID
    && match wk.post
      case PostReading(echo) => echo.Some? ==> Ledgered(clusters, wk.cluster)
      case PostWriting(base, copy) =>
        && wk.cluster in clusters && base < |clusters[wk.cluster]|
        && var stored := clusters[wk.cluster][base].advert.metrics.reserved;
        && (stored.Some? ==> copy.metrics.reserved == stored)
        && copy.active == clusters[wk.cluster][base].advert.active
        && (copy.metrics.reserved.Some? ==> Ledgered(clusters, wk.cluster))
      case PostCreating(copy) => !copy.active && (copy.metrics.reserved.Some? ==> Ledgered(clusters, wk.cluster))
      case PostDone => true
  }

  predicate RecalculatorOK(clusters: map<ClusterId, seq<Version>>, wk: Worker)
    requires wk.Recalculator?
  {
    && wk.cluster in clusters
    && match wk.recalc
      case RecalcWriting(base, copy) =>
        && base < |clusters[wk.cluster]|
        && LedgerStep(clusters[wk.cluster][base], Version(copy, Recomputed))
      case _ => true
  }

  ghost predicate WorkerOK(clusters: map<ClusterId, seq<Version>>, recs: seq<Record>, w: nat, wk: Worker) {
    match wk
    case Keeper(_, _, _, _, _, _, _) => KeeperOK(clusters, recs, w, wk)
    case Publisher(_, _, _) => PublisherOK(clusters, wk)
    case Recalculator(_, _) => RecalculatorOK(clusters, wk)
  }

  /** A committed lock belongs to a keeper that remembers it, so each keeper commits at most one. */
  predicate Claimed(workers: seq<Worker>, c: ClusterId, j: nat, o: Origin) {
    o.LockedBy? ==>
      && o.worker < |workers|
      && workers[o.worker].Keeper?
      && workers[o.worker].snap.target == c
      && workers[o.worker].lockedAt == Some(j)
  }

  ghost predicate RecordOK(rec: Record) {
    && Lifeline(rec.versions)
    && (Last(rec.versions).target == NO_ID ==> rec.owed == 0)
  }

  ghost predicate StoresOK(s: State) {
    forall c :: c in s.clusters ==> c != NO_ID && Serial(s.clusters[c])
  }

  ghost predicate RecordsOK(s: State) {
    forall i :: 0 <= i < |s.reservations| ==> RecordOK(s.reservations[i])
  }

  ghost predicate WorkersOK(s: State, workers: seq<Worker>) {
    forall w :: 0 <= w < |workers| ==> WorkerOK(s.clusters, s.reservations, w, workers[w])
  }

  ghost predicate ClaimsOK(s: State) {
    forall c, j :: c in s.clusters && 0 <= j < |s.clusters[c]| ==> Claimed(s.workers, c, j, s.clusters[c][j].origin)
  }

  ghost predicate BalanceOK(s: State) {
    forall c, k :: LedgerOf(s, c, k) == SumAt(s.reservations, c, k)
  }

  ghost predicate Inv(s: State) {
    StoresOK(s) && RecordsOK(s) && WorkersOK(s, s.workers) && ClaimsOK(s) && BalanceOK(s)
  }

  // ----- objects only grow -----

  ghost predicate Grows(s: State, s': State) {
    && (forall c :: c in s.clusters ==> c in s'.clusters && s.clusters[c] <= s'.clusters[c])
    && |s.reservations| <= |s'.reservations|
    && (forall i :: 0 <= i < |s.reservations| ==> s.reservations[i].versions <= s'.reservations[i].versions)
  }

  lemma LedgeredGrows(s: State, s': State, c: ClusterId)
    requires Grows(s, s') && Ledgered(s.clusters, c)
    requires c in s'.clusters && Serial(s'.clusters[c])
    ensures Ledgered(s'.clusters, c)
  {
    LedgerStaysPresent(s'.clusters[c], |s.clusters[c]| - 1, |s'.clusters[c]| - 1);
  }

  lemma WorkerOKGrows(s: State, s': State, w: nat, wk: Worker)
    requires WorkerOK(s.clusters, s.reservations, w, wk)
    requires Grows(s, s')
    requires forall c :: c in s'.clusters ==> Serial(s'.clusters[c])
    ensures WorkerOK(s'.clusters, s'.reservations, w, wk)
  {
    if wk.Publisher? && Ledgered(s.clusters, wk.cluster) {
      LedgeredGrows(s, s', wk.cluster);
    }
  }

  // ----- how the primitive changes keep the invariant -----

  lemma PutWorkerKeeps(s: State, w: nat, wk: Worker)
    requires Inv(s) && w < |s.workers|
    requires WorkerOK(s.clusters, s.reservations, w, wk)
    requires s.workers[w].Keeper? ==>
      wk.Keeper? && wk.snap.target == s.workers[w].snap.target && wk.lockedAt == s.workers[w].lockedAt
    ensures Inv(PutWorker(s, w, wk))
  {
    var s' := PutWorker(s, w, wk);
    forall c, j | c in s'.clusters && 0 <= j < |s'.clusters[c]|
      ensures Claimed(s'.workers, c, j, s'.clusters[c][j].origin)
    {
      assert Claimed(s.workers, c, j, s.clusters[c][j].origin);
    }
    forall c, k ensures LedgerOf(s', c, k) == SumAt(s'.reservations, c, k) {
      assert LedgerOf(s, c, k) == LedgerOf(s', c, k);
    }
  }

  lemma AddWorkerKeeps(s: State, wk: Worker)
    requires Inv(s)
    requires WorkerOK(s.clusters, s.reservations, |s.workers|, wk)
    ensures Inv(AddWorker(s, wk))
  {
    var s' := AddWorker(s, wk);
    forall c, j | c in s'.clusters && 0 <= j < |s'.clusters[c]|
      ensures Claimed(s'.workers, c, j, s'.clusters[c][j].origin)
    {
      assert Claimed(s.workers, c, j, s.clusters[c][j].origin);
    }
    forall c, k ensures LedgerOf(s', c, k) == SumAt(s'.reservations, c, k) {
      assert LedgerOf(s, c, k) == LedgerOf(s', c, k);
    }
  }

  lemma PutVersionGrows(s: State, c: ClusterId, v: Version)
    requires StoresOK(s) && c in s.clusters && LedgerStep(Last(s.clusters[c]), v)
    ensures StoresOK(PutVersion(s, c, v)) && Grows(s, PutVersion(s, c, v))
  {
    SerialSnoc(s.clusters[c], v);
  }

  lemma GrowthKeepsWorkers(s: State, s': State)
    requires WorkersOK(s, s.workers) && Grows(s, s') && StoresOK(s')
    ensures WorkersOK(s', s.workers)
  {
    forall w | 0 <= w < |s.workers|
      ensures WorkerOK(s'.clusters, s'.reservations, w, s.workers[w])
    {
      WorkerOKGrows(s, s', w, s.workers[w]);
    }
  }

  lemma PutVersionClaims(s: State, c: ClusterId, v: Version, d: ClusterId, j: nat)
    requires ClaimsOK(s) && c in s.clusters
    requires d in s.clusters && j < |PutVersion(s, c, v).clusters[d]| && !(d == c && j == |s.clusters[c]|)
    ensures Claimed(s.workers, d, j, PutVersion(s, c, v).clusters[d][j].origin)
  {
    assert PutVersion(s, c, v).clusters[d][j] == s.clusters[d][j];
  }

  lemma PutVersionLedger(s: State, c: ClusterId, v: Version, d: ClusterId, k: Resource)
    requires StoresOK(s) && c in s.clusters && LedgerStep(Last(s.clusters[c]), v)
    ensures LedgerOf(PutVersion(s, c, v), d, k) == LedgerOf(s, d, k) + (if d == c then Delta(v.origin, k) else 0)
  {
    StepMovesLedger(Last(s.clusters[c]), v, k);
  }

  lemma PutVersionKeeps(s: State, c: ClusterId, v: Version)
    requires Inv(s) && c in s.clusters
    requires LedgerStep(Last(s.clusters[c]), v) && !v.origin.LockedBy? && !v.origin.FreedBy?
    ensures Inv(PutVersion(s, c, v))
  {
    var s' := PutVersion(s, c, v);
    PutVersionGrows(s, c, v);
    GrowthKeepsWorkers(s, s');
    forall d, j | d in s'.clusters && 0 <= j < |s'.clusters[d]|
      ensures Claimed(s'.workers, d, j, s'.clusters[d][j].origin)
    {
      if !(d == c && j == |s.clusters[c]|) {
        PutVersionClaims(s, c, v, d, j);
      }
    }
    forall d, k ensures LedgerOf(s', d, k) == SumAt(s'.reservations, d, k) {
      PutVersionLedger(s, c, v, d, k);
    }
  }

  lemma PutReservationShare(rec: Record, r: Reservation, c: ClusterId, k: Resource)
    requires RecordOK(rec) && LifeStep(Last(rec.versions), r)
    requires r.target == NO_ID ==> !HeldPhase(r.phase)
    ensures var rec' := Record(rec.versions + [r], rec.owed + HeldUnits(Last(rec.versions)) - HeldUnits(r));
      RecordOK(rec') && ShareAt(rec', c, k) == ShareAt(rec, c, k)
  {
    LifelineSnoc(rec.versions, r);
    LifelineForward(rec.versions, |rec.versions| - 1, |rec.versions| - 1);
    assert Last(rec.versions + [r]) == r;
  }

  lemma PutReservationKeeps(s: State, rid: nat, r: Reservation)
    requires Inv(s) && rid < |s.reservations| && |s.reservations[rid].versions| > 0
    requires LifeStep(Last(s.reservations[rid].versions), r)
    requires r.target == NO_ID ==> !HeldPhase(r.phase)
    ensures Inv(PutReservation(s, rid, r)) && Grows(s, PutReservation(s, rid, r))
  {
    var s' := PutReservation(s, rid, r);
    assert RecordOK(s.reservations[rid]);
    PutReservationShare(s.reservations[rid], r, NO_ID, Cpu);
    GrowthKeepsWorkers(s, s');
    assert ClaimsOK(s') by {
      assert s'.clusters == s.clusters && s'.workers == s.workers;
      forall c, j | c in s.clusters && 0 <= j < |s.clusters[c]|
        ensures Claimed(s.workers, c, j, s.clusters[c][j].origin)
      {
      }
    }
    forall c, k ensures LedgerOf(s', c, k) == SumAt(s'.reservations, c, k) {
      PutReservationBalance(s, rid, r, c, k);
    }
  }

  lemma PutReservationBalance(s: State, rid: nat, r: Reservation, c: ClusterId, k: Resource)
    requires RecordsOK(s) && BalanceOK(s) && rid < |s.reservations| && |s.reservations[rid].versions| > 0
    requires LifeStep(Last(s.reservations[rid].versions), r)
    requires r.target == NO_ID ==> !HeldPhase(r.phase)
    ensures var s' := PutReservation(s, rid, r);
      LedgerOf(s', c, k) == SumAt(s'.reservations, c, k)
  {
    var s' := PutReservation(s, rid, r);
    assert RecordOK(s.reservations[rid]);
    assert LedgerOf(s, c, k) == LedgerOf(s', c, k);
    SumUpdate(s.reservations, rid, s'.reservations[rid], c, k);
    PutReservationShare(s.reservations[rid], r, c, k);
  }

  /** A successful reservation write by the keeper that read the current version. */
  lemma WriteReservationKeeps(s: State, w: nat, r: Reservation, pc: KeeperPc)
    requires Inv(s) && KeeperAt(s, w) && Current(s, s.workers[w])
    requires LifeStep(s.workers[w].snap, r)
    requires r.target == s.workers[w].snap.target || s.workers[w].lockedAt.None?
    requires s.workers[w].handler ==> r.target != r.requester
    requires PcOK(s.clusters, s.workers[w].(pc := pc, snap := r, ver := |s.reservations[s.workers[w].rid].versions|))
    ensures Inv(WriteReservation(s, w, r, pc))
  {
    var wk := s.workers[w];
    assert WorkerOK(s.clusters, s.reservations, w, wk);
    assert wk.snap == Last(s.reservations[wk.rid].versions);
    PutReservationKeeps(s, wk.rid, r);
    var s1 := PutReservation(s, wk.rid, r);
    var wk' := wk.(pc := pc, ver := |s.reservations[wk.rid].versions|, snap := r);
    assert WorkerOK(s1.clusters, s1.reservations, w, wk');
    if wk.lockedAt.Some? {
      PutWorkerKeeps(s1, w, wk');
    } else {
      RetargetUnlocked(s1, w, wk');
    }
  }

  /** A keeper without a committed lock is named by no version, so its snapshot may change freely. */
  lemma RetargetUnlocked(s: State, w: nat, wk: Worker)
    requires Inv(s) && w < |s.workers| && s.workers[w].Keeper? && s.workers[w].lockedAt.None?
    requires wk.Keeper? && wk.lockedAt.None? && WorkerOK(s.clusters, s.reservations, w, wk)
    ensures Inv(PutWorker(s, w, wk))
  {
    var s' := PutWorker(s, w, wk);
    forall c, j | c in s'.clusters && 0 <= j < |s'.clusters[c]|
      ensures Claimed(s'.workers, c, j, s'.clusters[c][j].origin)
    {
      assert Claimed(s.workers, c, j, s.clusters[c][j].origin);
    }
    forall c, k ensures LedgerOf(s', c, k) == SumAt(s'.reservations, c, k) {
      assert LedgerOf(s, c, k) == LedgerOf(s', c, k);
    }
  }

  lemma AddRecordKeeps(s: State, r: Reservation)
    requires Inv(s) && r.phase == Unset && !r.gone && !r.deleting
    ensures var s' := s.(reservations := s.reservations + [Record([r], 0)]);
      Inv(s') && Grows(s, s')
  {
    var s' := s.(reservations := s.reservations + [Record([r], 0)]);
    GrowthKeepsWorkers(s, s');
    assert ClaimsOK(s') by {
      assert s'.clusters == s.clusters && s'.workers == s.workers;
    }
    forall c, k ensures LedgerOf(s', c, k) == SumAt(s'.reservations, c, k) {
      assert LedgerOf(s, c, k) == LedgerOf(s', c, k);
      SumSnoc(s.reservations, Record([r], 0), c, k);
    }
  }

  // ----- commits -----

  lemma OwedShare(rec: Record, c: ClusterId, o: Origin, d: ClusterId, k: Resource)
    requires RecordOK(rec) && Last(rec.versions).target == c != NO_ID
    requires o.LockedBy? || o.FreedBy? ==> o.request == Last(rec.versions).request
    ensures var rec' := rec.(owed := rec.owed + Units(o));
      RecordOK(rec') && ShareAt(rec', d, k) == ShareAt(rec, d, k) + (if d == c then Delta(o, k) else 0)
  {
  }

  lemma SnapTarget(s: State, w: nat)
    requires Inv(s) && KeeperAt(s, w)
    ensures var wk := s.workers[w];
      && (wk.snap.target != NO_ID ==> Last(s.reservations[wk.rid].versions).target == wk.snap.target)
      && Last(s.reservations[wk.rid].versions).request == wk.snap.request
  {
    var wk := s.workers[w];
    assert WorkerOK(s.clusters, s.reservations, w, wk);
    assert RecordOK(s.reservations[wk.rid]);
    LifelineForward(s.reservations[wk.rid].versions, wk.ver, |s.reservations[wk.rid].versions| - 1);
  }

  /** A ledger commit by keeper w: a version on its target and the matching change of what is owed. */
  lemma CommitBalance(s: State, w: nat, v: Version)
    requires Inv(s) && KeeperAt(s, w) && s.workers[w].snap.target in s.clusters
    requires LedgerStep(Last(s.clusters[s.workers[w].snap.target]), v)
    requires v.origin.LockedBy? || v.origin.FreedBy? ==> v.origin.request == s.workers[w].snap.request
    ensures var wk := s.workers[w];
      var s' := AddOwed(PutVersion(s, wk.snap.target, v), wk.rid, Units(v.origin));
      StoresOK(s') && RecordsOK(s') && WorkersOK(s', s.workers) && BalanceOK(s')
  {
    var wk := s.workers[w];
    var c := wk.snap.target;
    var s1 := PutVersion(s, c, v);
    var s' := AddOwed(s1, wk.rid, Units(v.origin));
    PutVersionGrows(s, c, v);
    SnapTarget(s, w);
    assert RecordOK(s.reservations[wk.rid]);
    OwedShare(s.reservations[wk.rid], c, v.origin, c, Cpu);
    GrowthKeepsWorkers(s, s');
    forall d, k ensures LedgerOf(s', d, k) == SumAt(s'.reservations, d, k) {
      assert LedgerOf(s', d, k) == LedgerOf(s1, d, k);
      PutVersionLedger(s, c, v, d, k);
      SumUpdate(s.reservations, wk.rid, s'.reservations[wk.rid], d, k);
      OwedShare(s.reservations[wk.rid], c, v.origin, d, k);
    }
  }

  lemma LockCommitKeeps(s: State, w: nat)
    requires Inv(s)
    ensures Inv(DoLockCommit(s, w))
  {
    if KeeperAt(s, w) && s.workers[w].pc.LockWriting? && Exists(s, s.workers[w].snap.target) {
      var wk := s.workers[w];
      var c := wk.snap.target;
      assert WorkerOK(s.clusters, s.reservations, w, wk);
      if wk.pc.base + 1 != |s.clusters[c]| {
        PutWorkerKeeps(s, w, wk.(pc := LockReading));
      } else {
        var v := Version(wk.pc.copy, LockedBy(w, wk.snap.request));
        CommitBalance(s, w, v);
        var s1 := AddOwed(PutVersion(s, c, v), wk.rid, 1);
        var s' := DoLockCommit(s, w);
        assert WorkerOK(s'.clusters, s'.reservations, w, s'.workers[w]);
        forall d, j | d in s'.clusters && 0 <= j < |s'.clusters[d]|
          ensures Claimed(s'.workers, d, j, s'.clusters[d][j].origin)
        {
          if !(d == c && j == |s.clusters[c]|) {
            PutVersionClaims(s, c, v, d, j);
          }
        }
        forall d, k ensures LedgerOf(s', d, k) == SumAt(s'.reservations, d, k) {
          assert LedgerOf(s', d, k) == LedgerOf(s1, d, k);
        }
      }
    }
  }

  lemma FreeCommitKeeps(s: State, w: nat)
    requires Inv(s)
    ensures Inv(DoFreeCommit(s, w))
  {
    if KeeperAt(s, w) && s.workers[w].pc.FreeWriting? && Exists(s, s.workers[w].snap.target) {
      var wk := s.workers[w];
      var c := wk.snap.target;
      assert WorkerOK(s.clusters, s.reservations, w, wk);
      if wk.pc.base + 1 != |s.clusters[c]| {
        PutWorkerKeeps(s, w, wk.(pc := Idle));
      } else {
        var v := Version(wk.pc.copy, FreedBy(w, wk.snap.request));
        CommitBalance(s, w, v);
        var s1 := AddOwed(PutVersion(s, c, v), wk.rid, -1);
        forall d, j | d in s1.clusters && 0 <= j < |s1.clusters[d]|
          ensures Claimed(s1.workers, d, j, s1.clusters[d][j].origin)
        {
          if !(d == c && j == |s.clusters[c]|) {
            PutVersionClaims(s, c, v, d, j);
          }
        }
        PutWorkerKeeps(s1, w, wk.(pc := AfterFree(wk.snap)));
      }
    }
  }

  // ----- keeper events -----

  lemma DispatchOK(clusters: map<ClusterId, seq<Version>>, wk: Worker, now: int, view: seq<Candidate>)
    requires wk.Keeper? && !wk.snap.gone && wk.lockedAt.None? && !wk.handler && PhaseBacked(wk.snap)
    ensures PcOK(clusters, wk.(pc := Dispatch(wk.snap, now, view)))
  {
  }

  lemma BeginKeeps(s: State, e: Event)
    requires Inv(s) && (e.ReconcileBegin? || e.HandlerBegin? || e.UserCreate?)
    ensures Inv(Next(s, e))
  {
    match e
    case UserCreate(spec) => AddRecordKeeps(s, Fresh(spec));
    case HandlerBegin(requester, request, duration, priority, view) =>
      var s' := Next(s, e);
      if s' != s {
        var q := Query(requester, request, priority);
        ChoiceIsBest(view, q);
        var wk := Last(s'.workers);
        AddRecordKeeps(s, wk.snap);
        AddWorkerKeeps(s.(reservations := s.reservations + [Record([wk.snap], 0)]), wk);
      }
    case ReconcileBegin(rid, ver, now, view) =>
      var s' := Next(s, e);
      if s' != s {
        var wk := Last(s'.workers);
        var vs := s.reservations[rid].versions;
        assert RecordOK(s.reservations[rid]);
        LifelineForward(vs, ver, ver);
        DispatchOK(s.clusters, wk, now, view);
        AddWorkerKeeps(s, wk);
      }
    case _ =>
  }

  lemma UserKeeps(s: State, e: Event)
    requires Inv(s) && (e.UserSignal? || e.UserDelete?)
    ensures Inv(Next(s, e))
  {
    var s' := Next(s, e);
    if s' != s {
      var vs := s.reservations[e.rid].versions;
      assert RecordOK(s.reservations[e.rid]);
      LifelineForward(vs, |vs| - 1, |vs| - 1);
      PutReservationKeeps(s, e.rid, Last(s'.reservations[e.rid].versions));
    }
  }

  /** The keeper's snapshot obeys the reservation's history. */
  lemma SnapBacked(s: State, w: nat)
    requires Inv(s) && KeeperAt(s, w)
    ensures WorkerOK(s.clusters, s.reservations, w, s.workers[w])
    ensures PhaseBacked(s.workers[w].snap) && DeletionWaits(s.workers[w].snap)
  {
    var wk := s.workers[w];
    assert WorkerOK(s.clusters, s.reservations, w, wk);
    assert RecordOK(s.reservations[wk.rid]);
    LifelineForward(s.reservations[wk.rid].versions, wk.ver, wk.ver);
  }

  lemma FinalizeKeeps(s: State, w: nat, ok: bool, now: int, view: seq<Candidate>)
    requires Inv(s)
    ensures Inv(DoFinalize(s, w, ok, now, view))
  {
    if KeeperAt(s, w) && s.workers[w].pc == Finalizing {
      SnapBacked(s, w);
      var wk := s.workers[w];
      if !ok || !Current(s, wk) {
        PutWorkerKeeps(s, w, wk.(pc := if wk.handler then LockReading else Idle));
      } else {
        var r := wk.snap.(finalizer := true);
        if !wk.handler {
          DispatchOK(s.clusters, wk.(snap := r), now, view);
        }
        assert Dispatch(wk.snap, now, view) == Dispatch(r, now, view);
        WriteReservationKeeps(s, w, r, if wk.handler then LockReading else Dispatch(wk.snap, now, view));
      }
    }
  }

  lemma RetargetKeeps(s: State, w: nat)
    requires Inv(s)
    ensures Inv(DoRetarget(s, w))
  {
    if KeeperAt(s, w) && s.workers[w].pc.Targeting? {
      SnapBacked(s, w);
      var wk := s.workers[w];
      if !Current(s, wk) {
        PutWorkerKeeps(s, w, wk.(pc := Idle));
      } else {
        WriteReservationKeeps(s, w, wk.snap.(target := wk.pc.choice), LockReading);
      }
    }
  }

  lemma LockReadKeeps(s: State, w: nat, base: Option<nat>)
    requires Inv(s)
    ensures Inv(DoLockRead(s, w, base))
  {
    var s' := DoLockRead(s, w, base);
    if s' != s {
      SnapBacked(s, w);
      PutWorkerKeeps(s, w, s'.workers[w]);
    }
  }

  lemma LockGiveUpKeeps(s: State, w: nat)
    requires Inv(s)
    ensures Inv(DoLockGiveUp(s, w))
  {
    var s' := DoLockGiveUp(s, w);
    if s' != s {
      SnapBacked(s, w);
      PutWorkerKeeps(s, w, s'.workers[w]);
    }
  }

  lemma FreeReadKeeps(s: State, w: nat, base: Option<nat>)
    requires Inv(s)
    ensures Inv(DoFreeRead(s, w, base))
  {
    var s' := DoFreeRead(s, w, base);
    if s' != s {
      SnapBacked(s, w);
      PutWorkerKeeps(s, w, s'.workers[w]);
    }
  }

  lemma MarkKeeps(s: State, w: nat, ok: bool, now: int)
    requires Inv(s)
    ensures Inv(DoMark(s, w, ok, now))
  {
    if KeeperAt(s, w) && s.workers[w].pc.Marking? {
      var wk := s.workers[w];
      var p := wk.pc.phase;
      if ok && Current(s, wk) {
        MarkStored(s, w, now);
        var s1 := WriteReservation(s, w, WithPhase(wk.snap, p, now), Idle);
        AnswerKeeps(s1, w, wk.handler && p == Reserved);
      } else {
        MarkUnstored(s, w);
        AnswerKeeps(SetPc(s, w, Idle), w, wk.handler && p == Reserved);
      }
    }
  }

  lemma MarkStored(s: State, w: nat, now: int)
    requires Inv(s) && KeeperAt(s, w) && s.workers[w].pc.Marking? && Current(s, s.workers[w])
    ensures var wk := s.workers[w];
      var s1 := WriteReservation(s, w, WithPhase(wk.snap, wk.pc.phase, now), Idle);
      Inv(s1) && (wk.pc.phase == Reserved ==> s1.workers[w].lockedAt.Some?)
  {
    SnapBacked(s, w);
    var wk := s.workers[w];
    assert wk.lockedAt.Some? ==> wk.snap.target != NO_ID;
    WriteReservationKeeps(s, w, WithPhase(wk.snap, wk.pc.phase, now), Idle);
  }

  lemma MarkUnstored(s: State, w: nat)
    requires Inv(s) && KeeperAt(s, w) && s.workers[w].pc.Marking?
    ensures Inv(SetPc(s, w, Idle))
    ensures s.workers[w].pc.phase == Reserved ==> s.workers[w].lockedAt.Some?
  {
    SnapBacked(s, w);
    PutWorkerKeeps(s, w, s.workers[w].(pc := Idle));
  }

  lemma AnswerKeeps(s: State, w: nat, answered: bool)
    requires Inv(s) && w < |s.workers| && s.workers[w].Keeper?
    requires answered ==> s.workers[w].handler && s.workers[w].lockedAt.Some?
    ensures Inv(PutWorker(s, w, s.workers[w].(answered := answered)))
  {
    assert WorkerOK(s.clusters, s.reservations, w, s.workers[w]);
    PutWorkerKeeps(s, w, s.workers[w].(answered := answered));
  }

  lemma UnfinalizeKeeps(s: State, w: nat)
    requires Inv(s)
    ensures Inv(DoUnfinalize(s, w))
  {
    if KeeperAt(s, w) && s.workers[w].pc == Unfinalizing {
      SnapBacked(s, w);
      var wk := s.workers[w];
      if !Current(s, wk) {
        PutWorkerKeeps(s, w, wk.(pc := Idle));
      } else {
        WriteReservationKeeps(s, w, wk.snap.(finalizer := false, gone := true), Idle);
      }
    }
  }

  lemma AbortKeeps(s: State, w: nat)
    requires Inv(s)
    ensures Inv(DoAbort(s, w))
  {
    if w < |s.workers| {
      assert WorkerOK(s.clusters, s.reservations, w, s.workers[w]);
      PutWorkerKeeps(s, w, DoAbort(s, w).workers[w]);
    }
  }

  // ----- publisher and recalculator events -----

  lemma PublishKeeps(s: State, e: Event)
    requires Inv(s) && (e.PublishBegin? || e.PostRead?)
    ensures Inv(Next(s, e))
  {
    var s' := Next(s, e);
    if s' != s {
      if e.PublishBegin? {
        if e.seen.Some? && s.clusters[e.cluster][e.seen.value].advert.metrics.reserved.Some? {
          LedgerStaysPresent(s.clusters[e.cluster], e.seen.value, |s.clusters[e.cluster]| - 1);
        }
        AddWorkerKeeps(s, Last(s'.workers));
      } else {
        var wk := s.workers[e.w];
        assert WorkerOK(s.clusters, s.reservations, e.w, wk);
        if e.base.Some? && s.clusters[wk.cluster][e.base.value].advert.metrics.reserved.Some? {
          LedgerStaysPresent(s.clusters[wk.cluster], e.base.value, |s.clusters[wk.cluster]| - 1);
        }
        PutWorkerKeeps(s, e.w, s'.workers[e.w]);
      }
    }
  }

  lemma PostCommitKeeps(s: State, w: nat)
    requires Inv(s)
    ensures Inv(DoPostCommit(s, w))
  {
    if w < |s.workers| && s.workers[w].Publisher? {
      var wk := s.workers[w];
      assert WorkerOK(s.clusters, s.reservations, w, wk);
      var done := PutWorker(s, w, wk.(post := PostDone));
      PutWorkerKeeps(s, w, wk.(post := PostDone));
      match wk.post
      case PostWriting(base, copy) =>
        if Exists(s, wk.cluster) && base + 1 == |s.clusters[wk.cluster]| {
          PutVersionKeeps(done, wk.cluster, Version(copy, Published));
        }
      case PostCreating(copy) =>
        if wk.cluster !in s.clusters {
          CreateKeeps(done, wk.cluster, Version(copy, Published));
        }
      case _ =>
    }
  }

  lemma CreateKeeps(s: State, c: ClusterId, v: Version)
    requires Inv(s) && c !in s.clusters && c != NO_ID
    requires v.origin.Published? && v.advert.metrics.reserved.None? && !v.advert.active
    ensures Inv(s.(clusters := s.clusters[c := [v]]))
  {
    var s' := s.(clusters := s.clusters[c := [v]]);
    forall w | 0 <= w < |s.workers|
      ensures WorkerOK(s'.clusters, s'.reservations, w, s.workers[w])
    {
      WorkerOKGrows(s, s', w, s.workers[w]);
    }
    forall d, j | d in s'.clusters && 0 <= j < |s'.clusters[d]|
      ensures Claimed(s'.workers, d, j, s'.clusters[d][j].origin)
    {
      if d != c {
        assert Claimed(s.workers, d, j, s.clusters[d][j].origin);
      }
    }
    forall d, k ensures LedgerOf(s', d, k) == SumAt(s'.reservations, d, k) {
      assert LedgerOf(s', d, k) == LedgerOf(s, d, k);
    }
  }

  lemma RecalcKeeps(s: State, e: Event)
    requires Inv(s) && (e.RecalcBegin? || e.RecalcCommit? || e.StatusCommit?)
    ensures Inv(Next(s, e))
  {
    var s' := Next(s, e);
    if s' != s {
      if e.RecalcBegin? {
        AddWorkerKeeps(s, Last(s'.workers));
      } else {
        var wk := s.workers[e.w];
        assert WorkerOK(s.clusters, s.reservations, e.w, wk);
        var c := wk.cluster;
        if |s'.clusters[c]| > |s.clusters[c]| {
          var v := Last(s'.clusters[c]);
          PutVersionKeeps(s, c, v);
          PutWorkerKeeps(PutVersion(s, c, v), e.w, s'.workers[e.w]);
        } else {
          PutWorkerKeeps(s, e.w, s'.workers[e.w]);
        }
      }
    }
  }

  // ----- every run -----

  lemma NextKeeps(s: State, e: Event)
    requires Inv(s)
    ensures Inv(Next(s, e))
  {
    match e
    case UserCreate(_) => BeginKeeps(s, e);
    case HandlerBegin(_, _, _, _, _) => BeginKeeps(s, e);
    case ReconcileBegin(_, _, _, _) => BeginKeeps(s, e);
    case UserSignal(_, _, _) => UserKeeps(s, e);
    case UserDelete(_) => UserKeeps(s, e);
    case Finalize(w, ok, now, view) => FinalizeKeeps(s, w, ok, now, view);
    case Retarget(w) => RetargetKeeps(s, w);
    case LockRead(w, base) => LockReadKeeps(s, w, base);
    case LockGiveUp(w) => LockGiveUpKeeps(s, w);
    case FreeRead(w, base) => FreeReadKeeps(s, w, base);
    case LockCommit(w) => LockCommitKeeps(s, w);
    case FreeCommit(w) => FreeCommitKeeps(s, w);
    case Mark(w, ok, now) => MarkKeeps(s, w, ok, now);
    case Unfinalize(w) => UnfinalizeKeeps(s, w);
    case Abort(w) => AbortKeeps(s, w);
    case PublishBegin(_, _, _) => PublishKeeps(s, e);
    case PostRead(_, _) => PublishKeeps(s, e);
    case PostCommit(w) => PostCommitKeeps(s, w);
    case RecalcBegin(_, _) => RecalcKeeps(s, e);
    case RecalcCommit(_, _, _) => RecalcKeeps(s, e);
    case StatusCommit(_) => RecalcKeeps(s, e);
  }

  lemma {:induction false} EveryRunKeeps(events: seq<Event>)
    ensures Inv(Exec(INIT, events))
  {
    if |events| == 0 {
      assert forall c, k :: SumAt(INIT.reservations, c, k) == 0;
    } else {
      EveryRunKeeps(events[..|events| - 1]);
      NextKeeps(Exec(INIT, events[..|events| - 1]), Last(events));
    }
  }
}
