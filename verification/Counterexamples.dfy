/**
 Short runs showing why the calm hypotheses, and the hypotheses of the double-booking and
 scoring theorems, cannot be dropped. Agents are honest in all of them.
 */
module Counterexamples {
  import opened Quantities
  import opened Availability
  import opened Decision
  import opened Protocol
  import opened Invariant
  import opened Calm
  import opened Safety
  import opened Honesty
  import R = Requester
  import I = Instructions
  import L = Ledgers
  import C = Collector

  const PROVIDER: ClusterId := 2
  const REQUESTER: ClusterId := 1
  const TEN := ResourceQuantities(Amount(10, 10), None)
  const NOTHING := ResourceQuantities(Amount(0, 0), None)
  const FOUR := Amount(4, 4)
  const EIGHT := Amount(8, 8)
  const PAYLOAD := Payload(TEN, NOTHING, TEN, 0)
  const VIEW := [Candidate(PROVIDER, Amount(10, 10), Amount(10, 10), false, true)]

  /** One provider advertised, one reservation of four created by the handler and given its finalizer. */
  function Setup(): State {
    State(map[PROVIDER := [Version(Advert(Metrics(TEN, NOTHING, None, TEN), false, 0, false), Published)]],
          [Record([Made(Unset, false), Made(Unset, true)], 0)],
          [Publisher(PostDone, PROVIDER, PAYLOAD), Keeper(LockReading, 0, 1, Made(Unset, true), true, None, false)])
  }

  function Made(p: Phase, finalizer: bool): Reservation {
    Reservation(REQUESTER, PROVIDER, FOUR, Some(60), 0, p, None, false, false, finalizer, false, false)
  }

  lemma Then(o: State, s: State, e: Event) returns (s': State)
    requires HonestlyLeads(o, s)
    requires e.PublishBegin? ==> Honest(e.payload)
    ensures s' == Next(s, e) && HonestlyLeads(o, s')
  {
    s' := Next(s, e);
    var events: seq<Event> :| Ran(o, events, s) && HonestEvents(events);
    assert Exec(o, events) == s;
    ExecSnoc(o, events, e);
    assert Ran(o, events + [e], s') && HonestEvents(events + [e]);
  }

  lemma HonestlyStays(s: State)
    ensures HonestlyLeads(s, s)
  {
    assert Exec(s, []) == s;
    assert Ran(s, [], s) && HonestEvents([]);
  }

  /** The same before the finalizer. */
  function Before(): State {
    State(Setup().clusters, [Record([Made(Unset, false)], 0)],
          [Publisher(PostDone, PROVIDER, PAYLOAD), Keeper(Finalizing, 0, 0, Made(Unset, false), true, None, false)])
  }

  lemma BeforeRun() returns (s: State)
    ensures HonestlyLeads(INIT, s) && s == Before()
  {
    s := INIT;
    HonestlyStays(INIT);
    s := Then(INIT, s, PublishBegin(PROVIDER, PAYLOAD, None));
    s := Then(INIT, s, PostRead(0, None));
    s := Then(INIT, s, PostCommit(0));
    assert s.clusters == Setup().clusters;
    s := Then(INIT, s, HandlerBegin(REQUESTER, FOUR, Some(60), 0, VIEW));
    ChoiceIsBest(VIEW, Query(REQUESTER, FOUR, 0));
    assert Choice(VIEW, Query(REQUESTER, FOUR, 0)) == Some(0);
    assert s.reservations == [Record([Made(Unset, false)], 0)];
    assert s.workers == Before().workers;
  }

  lemma SetupRun() returns (s: State)
    ensures HonestlyLeads(INIT, s) && s == Setup()
  {
    s := BeforeRun();
    s := Then(INIT, s, Finalize(1, true, 0, []));
    assert s.reservations[0].versions == [Made(Unset, false), Made(Unset, true)];
    assert s.reservations == Setup().reservations;
    assert s.workers == Setup().workers;
  }

  /** The provider's ledger and Available when `reserved` is locked and `available` is stored. */
  function Ledger(reserved: int, available: int): Metrics {
    Metrics(TEN, NOTHING, Some(ResourceQuantities(Amount(reserved, reserved), None)),
            ResourceQuantities(Amount(available, available), None))
  }

  predicate Stored(s: State, versions: nat, reserved: int, available: int) {
    Exists(s, PROVIDER) && |s.clusters[PROVIDER]| == versions
    && Last(s.clusters[PROVIDER]).advert.metrics == Ledger(reserved, available)
  }

  predicate HeldNow(rec: Record) {
    |rec.versions| > 0 && HeldUnits(Last(rec.versions)) == 1
  }

  lemma LedgerSteps(reserved: int, available: int)
    ensures Locked(Metrics(TEN, NOTHING, None, TEN), FOUR) == Ledger(4, 6)
    ensures Locked(Ledger(reserved, available), FOUR) == Ledger(reserved + 4, 6 - reserved)
    ensures Locked(Ledger(reserved, available), EIGHT) == Ledger(reserved + 8, 2 - reserved)
    ensures Freed(Ledger(reserved, available), FOUR) == Ledger(reserved - 4, 14 - reserved)
  {
  }

  /** Keeper w reads the current version and commits its lock. */
  lemma LockNow(o: State, s: State, w: nat, m: Metrics) returns (s': State)
    requires HonestlyLeads(o, s)
    requires KeeperAt(s, w) && s.workers[w].pc == LockReading && s.workers[w].snap.target == PROVIDER
    requires Exists(s, PROVIDER) && Last(s.clusters[PROVIDER]).advert.metrics == m
    requires GpuComplete(m) && CanReserve(m, s.workers[w].snap.request)
    ensures HonestlyLeads(o, s')
    ensures Exists(s', PROVIDER) && |s'.clusters[PROVIDER]| == |s.clusters[PROVIDER]| + 1
    ensures Last(s'.clusters[PROVIDER]).advert.metrics == Locked(m, s.workers[w].snap.request)
    ensures s'.reservations == s.reservations[s.workers[w].rid := s.reservations[s.workers[w].rid].(
                                              owed := s.reservations[s.workers[w].rid].owed + 1)]
    ensures s'.workers == s.workers[w := s.workers[w].(pc := Marking(Reserved),
                                                       lockedAt := Some(|s.clusters[PROVIDER]|))]
  {
    s' := Then(o, s, LockRead(w, Some(|s.clusters[PROVIDER]| - 1)));
    s' := Then(o, s', LockCommit(w));
  }

  lemma ReadForRelease(s: State, w: nat, m: Metrics) returns (s': State)
    requires HonestlyLeads(INIT, s)
    requires KeeperAt(s, w) && s.workers[w].pc == FreeReading && s.workers[w].snap.target == PROVIDER
    requires Exists(s, PROVIDER) && Last(s.clusters[PROVIDER]).advert.metrics == m
    requires GpuComplete(m) && m.reserved.Some?
    ensures HonestlyLeads(INIT, s')
    ensures var adv := Last(s.clusters[PROVIDER]).advert;
      s' == SetPc(s, w, FreeWriting(|s.clusters[PROVIDER]| - 1,
                                    adv.(metrics := Freed(m, s.workers[w].snap.request))))
  {
    s' := Then(INIT, s, FreeRead(w, Some(|s.clusters[PROVIDER]| - 1)));
  }

  /** Keeper w reads the current version and commits its release. */
  lemma FreeNow(s: State, w: nat, m: Metrics) returns (s': State)
    requires HonestlyLeads(INIT, s)
    requires KeeperAt(s, w) && s.workers[w].pc == FreeReading && s.workers[w].snap.target == PROVIDER
    requires Exists(s, PROVIDER) && Last(s.clusters[PROVIDER]).advert.metrics == m
    requires GpuComplete(m) && m.reserved.Some?
    ensures HonestlyLeads(INIT, s')
    ensures Exists(s', PROVIDER) && |s'.clusters[PROVIDER]| == |s.clusters[PROVIDER]| + 1
    ensures Last(s'.clusters[PROVIDER]).advert.metrics == Freed(m, s.workers[w].snap.request)
    ensures s'.reservations == s.reservations[s.workers[w].rid := s.reservations[s.workers[w].rid].(
                                              owed := s.reservations[s.workers[w].rid].owed + -1)]
    ensures s'.workers == s.workers[w := s.workers[w].(pc := AfterFree(s.workers[w].snap))]
  {
    var s1 := ReadForRelease(s, w, m);
    s' := Then(INIT, s1, FreeCommit(w));
  }

  /**
   Two lockers. The handler leaves its reservation with an empty phase and a target, so
   the reconciler can lock it too: one reservation of four ends up holding eight for good.
   */
  lemma DoubleLocking() returns (s: State)
    ensures HonestlyLeads(INIT, s)
      && |s.reservations| == 1 && HeldNow(s.reservations[0])
      && (forall w :: 0 <= w < |s.workers| ==> !Busy(s.workers[w]))
      && LedgerOf(s, PROVIDER, Cpu) == 8
  {
    s := SetupRun();
    s := Then(INIT, s, ReconcileBegin(0, 1, 0, []));
    assert s.workers[2] == Keeper(LockReading, 0, 1, Made(Unset, true), false, None, false);
    LedgerSteps(4, 6);
    s := LockNow(INIT, s, 1, Metrics(TEN, NOTHING, None, TEN));
    s := LockNow(INIT, s, 2, Ledger(4, 6));
    s := Then(INIT, s, Mark(1, true, 0));
    assert |s.reservations[0].versions| == 3;
    s := Then(INIT, s, Mark(2, true, 0));
  }

  /** The handler locks and then crashes before its status write. */
  lemma LockedThenCrashed() returns (s: State)
    ensures HonestlyLeads(INIT, s) && Stored(s, 2, 4, 6)
    ensures |s.workers| == 2 && !Busy(s.workers[0]) && !Busy(s.workers[1])
    ensures |s.reservations| == 1 && s.reservations[0].versions == [Made(Unset, false), Made(Unset, true)]
  {
    s := SetupRun();
    LedgerSteps(4, 6);
    s := LockNow(INIT, s, 1, Metrics(TEN, NOTHING, None, TEN));
    s := Then(INIT, s, Abort(1));
  }

  /** A crash after the lock and before the status write: the next reconcile locks again. */
  lemma CrashRepeatsLock() returns (s: State)
    ensures HonestlyLeads(INIT, s)
      && |s.reservations| == 1 && HeldNow(s.reservations[0])
      && (forall w :: 0 <= w < |s.workers| ==> !Busy(s.workers[w]))
      && LedgerOf(s, PROVIDER, Cpu) == 8
  {
    s := LockedThenCrashed();
    s := Then(INIT, s, ReconcileBegin(0, 1, 0, []));
    assert s.workers[2] == Keeper(LockReading, 0, 1, Made(Unset, true), false, None, false);
    LedgerSteps(4, 6);
    s := LockNow(INIT, s, 2, Ledger(4, 6));
    s := Then(INIT, s, Mark(2, true, 0));
    StoredLedger(s, 8, 2);
  }

  /** A status write that fails after the lock: the reservation stays open, and is locked again. */
  lemma UnstoredStatusRepeatsLock() returns (s: State)
    ensures HonestlyLeads(INIT, s)
      && |s.reservations| == 1 && HeldNow(s.reservations[0])
      && (forall w :: 0 <= w < |s.workers| ==> !Busy(s.workers[w]))
      && LedgerOf(s, PROVIDER, Cpu) == 8
  {
    s := LockedButUnmarked();
    s := Then(INIT, s, ReconcileBegin(0, 1, 0, []));
    assert s.workers[2] == Keeper(LockReading, 0, 1, Made(Unset, true), false, None, false);
    LedgerSteps(4, 6);
    s := LockNow(INIT, s, 2, Ledger(4, 6));
    s := Then(INIT, s, Mark(2, true, 0));
    StoredLedger(s, 8, 2);
  }

  /** A user's signal between lock and status write makes the latter conflict: the reservation is locked again. */
  lemma SignalRepeatsLock() returns (s: State)
    ensures HonestlyLeads(INIT, s)
      && |s.reservations| == 1 && HeldNow(s.reservations[0])
      && (forall w :: 0 <= w < |s.workers| ==> !Busy(s.workers[w]))
      && LedgerOf(s, PROVIDER, Cpu) == 8
  {
    s := LockedThenSignalled();
    var signalled := Made(Unset, true).(requesterActive := true);
    s := Then(INIT, s, ReconcileBegin(0, 2, 0, []));
    assert s.workers[2] == Keeper(LockReading, 0, 2, signalled, false, None, false);
    LedgerSteps(4, 6);
    s := LockNow(INIT, s, 2, Ledger(4, 6));
    s := Then(INIT, s, Mark(2, true, 0));
    StoredLedger(s, 8, 2);
  }

  lemma LockedThenSignalled() returns (s: State)
    ensures HonestlyLeads(INIT, s) && Stored(s, 2, 4, 6)
    ensures |s.workers| == 2 && !Busy(s.workers[0]) && !Busy(s.workers[1])
    ensures |s.reservations| == 1 && s.reservations[0].versions
      == [Made(Unset, false), Made(Unset, true), Made(Unset, true).(requesterActive := true)]
  {
    s := SetupRun();
    LedgerSteps(4, 6);
    s := LockNow(INIT, s, 1, Metrics(TEN, NOTHING, None, TEN));
    s := Then(INIT, s, UserSignal(0, true, false));
    assert |s.reservations[0].versions| == 3;
    s := Then(INIT, s, Mark(1, true, 0));
  }

  lemma LockedButUnmarked() returns (s: State)
    ensures HonestlyLeads(INIT, s) && Stored(s, 2, 4, 6)
    ensures |s.workers| == 2 && !Busy(s.workers[0]) && !Busy(s.workers[1])
    ensures |s.reservations| == 1 && s.reservations[0].versions == [Made(Unset, false), Made(Unset, true)]
  {
    s := SetupRun();
    LedgerSteps(4, 6);
    s := LockNow(INIT, s, 1, Metrics(TEN, NOTHING, None, TEN));
    s := Then(INIT, s, Mark(1, false, 0));
  }

  /** A held reservation whose finalizer was never stored is deleted: it is gone, and its amount stays for good. */
  lemma UnfinalizedDeleteLeaks() returns (s: State)
    ensures HonestlyLeads(INIT, s)
      && |s.reservations| == 1 && |s.reservations[0].versions| > 0 && Last(s.reservations[0].versions).gone
      && (forall w :: 0 <= w < |s.workers| ==> !Busy(s.workers[w]))
      && LedgerOf(s, PROVIDER, Cpu) == 4
  {
    s := BeforeRun();
    s := Then(INIT, s, Finalize(1, false, 0, []));
    assert s.workers[1] == Keeper(LockReading, 0, 0, Made(Unset, false), true, None, false);
    LedgerSteps(4, 6);
    s := LockNow(INIT, s, 1, Metrics(TEN, NOTHING, None, TEN));
    s := Then(INIT, s, Mark(1, true, 0));
    assert s.reservations[0].versions == [Made(Unset, false), HeldMade().(finalizer := false)];
    s := Then(INIT, s, UserDelete(0));
    StoredLedger(s, 4, 6);
  }

  /** A release whose list misses the target is skipped: the reservation is Released, and its amount stays for good. */
  lemma MissedInListLeaks() returns (s: State)
    ensures HonestlyLeads(INIT, s)
      && |s.reservations| == 1 && |s.reservations[0].versions| > 0 && Last(s.reservations[0].versions).phase == Released
      && (forall w :: 0 <= w < |s.workers| ==> !Busy(s.workers[w]))
      && LedgerOf(s, PROVIDER, Cpu) == 4
  {
    s := HeldRun();
    s := Then(INIT, s, ReconcileBegin(0, 2, 61, []));
    assert s.workers[2] == Keeper(FreeReading, 0, 2, HeldMade(), false, None, false);
    s := Then(INIT, s, FreeRead(2, None));
    s := Then(INIT, s, Mark(2, true, 61));
    StoredLedger(s, 4, 6);
  }

  /** Locked and recorded by the handler. */
  lemma HeldRun() returns (s: State)
    ensures HonestlyLeads(INIT, s) && Stored(s, 2, 4, 6)
    ensures |s.workers| == 2 && !Busy(s.workers[0]) && !Busy(s.workers[1])
    ensures |s.reservations| == 1 && s.reservations[0].versions == [Made(Unset, false), Made(Unset, true), HeldMade()]
  {
    s := SetupRun();
    LedgerSteps(4, 6);
    s := LockNow(INIT, s, 1, Metrics(TEN, NOTHING, None, TEN));
    s := Then(INIT, s, Mark(1, true, 0));
    assert s.reservations[0].versions == [Made(Unset, false), Made(Unset, true), HeldMade()];
  }

  /** Locked by the handler, then released on expiry by the reconciler. */
  lemma LockedThenReleased() returns (s: State)
    ensures HonestlyLeads(INIT, s) && Stored(s, 3, 0, 10) && |s.workers| == 3
    ensures |s.reservations| == 1 && |s.reservations[0].versions| == 4 && s.reservations[0].versions[2] == HeldMade()
  {
    s := HeldRun();
    LedgerSteps(4, 6);
    s := Then(INIT, s, ReconcileBegin(0, 2, 61, []));
    assert s.workers[2] == Keeper(FreeReading, 0, 2, HeldMade(), false, None, false);
    s := FreeNow(s, 2, Ledger(4, 6));
    s := Then(INIT, s, Mark(2, true, 61));
  }

  function HeldMade(): Reservation {
    Made(Reserved, true).(expiresAt := Some(60))
  }

  /** A reconcile that reads the reservation from a stale cache releases it a second time: the ledger goes negative. */
  lemma StaleReadRepeatsRelease() returns (s: State)
    ensures HonestlyLeads(INIT, s) && LedgerOf(s, PROVIDER, Cpu) == -4 && Stored(s, 4, -4, 14)
  {
    s := LockedThenReleased();
    assert FirstAction(HeldMade(), 62, []) == FreeReading;
    s := Then(INIT, s, ReconcileBegin(0, 2, 62, []));
    assert s.workers[3] == Keeper(FreeReading, 0, 2, HeldMade(), false, None, false);
    LedgerSteps(0, 10);
    s := FreeNow(s, 3, Ledger(0, 10));
    StoredLedger(s, -4, 14);
  }

  lemma StoredLedger(s: State, reserved: int, available: int)
    requires Exists(s, PROVIDER) && Last(s.clusters[PROVIDER]).advert.metrics == Ledger(reserved, available)
    ensures LedgerOf(s, PROVIDER, Cpu) == reserved
  {
  }

  /** Locked by the handler and delivered; then deleted, and released by the reconciler. */
  lemma DeletedEarly() returns (s: State)
    ensures HonestlyLeads(INIT, s) && Stored(s, 3, 0, 10)
    ensures |s.reservations| == 1 && |s.reservations[0].versions| > 2 && s.reservations[0].versions[2] == HeldMade()
  {
    s := HeldRun();
    LedgerSteps(4, 6);
    s := Then(INIT, s, UserDelete(0));
    assert s.reservations[0].versions[3] == HeldMade().(deleting := true);
    s := Then(INIT, s, ReconcileBegin(0, 3, 1, []));
    assert s.workers[2] == Keeper(FreeReading, 0, 3, HeldMade().(deleting := true), false, None, false);
    s := FreeNow(s, 2, Ledger(4, 6));
  }

  /**
   An early release does not reach the provider: until the deadline its agent, which was offered
   the reservation and enforced it, still counts it, although the broker's ledger is empty.
   */
  lemma EarlyReleaseStillCounts() returns (s: State, sp: I.Spaces, acts: seq<I.Act>, key: I.Key)
    ensures HonestlyLeads(INIT, s) && LedgerOf(s, PROVIDER, Cpu) == 0
      && L.ActsFromBroker(s, acts, PROVIDER)
      && L.Enumerates(I.Acted(sp, map[], acts), [key])
      && C.ReservedSum(L.Listing(I.Acted(sp, map[], acts), [key]), 60, Cpu) == 4
  {
    s := DeletedEarly();
    StoredLedger(s, 0, 10);
    var o := I.OfferOf(0, HeldMade());
    assert HeldMade() in s.reservations[0].versions;
    assert L.Shows(o, HeldMade(), PROVIDER);
    assert L.FromBroker(s, o, PROVIDER);
    sp, key := I.Spaces(1, 1), I.Key(1, 0);
    acts := [I.Polled([o]), I.Tend(key, 0)];
    var store := OfferedAndEnforced(o);
    assert forall i :: i in acts && !i.Tend? ==> i == I.Polled([o]);
    var list := L.Listing(store, [key]);
    assert list == [store[key]] && |list[..0]| == 0;
    assert C.ReservedSum(list[..0], 60, Cpu) == 0;
  }

  lemma OfferedAndEnforced(o: I.Offer) returns (store: I.Store)
    requires o == I.OfferOf(0, HeldMade())
    ensures store == I.Acted(I.Spaces(1, 1), map[], [I.Polled([o]), I.Tend(I.Key(1, 0), 0)])
    ensures store == map[I.Key(1, 0) := I.Made(o).(enforced := true)]
  {
    var polled := [I.Polled([o])];
    assert polled[..0] == [] && (polled + [I.Tend(I.Key(1, 0), 0)])[..1] == polled;
    assert |[o][1..]| == 0;
    assert I.Deliver(map[], 1, [o]) == I.Deliver(I.Put(map[], 1, o), 1, [o][1..]) == map[I.Key(1, 0) := I.Made(o)];
    assert I.Acted(I.Spaces(1, 1), map[], polled) == map[I.Key(1, 0) := I.Made(o)];
    store := I.After(I.Spaces(1, 1), map[I.Key(1, 0) := I.Made(o)], I.Tend(I.Key(1, 0), 0));
    assert polled + [I.Tend(I.Key(1, 0), 0)] == [I.Polled([o]), I.Tend(I.Key(1, 0), 0)];
  }

  lemma MergeFour(adv: Advert)
    requires adv.metrics == Ledger(4, 6)
    ensures Merge(PAYLOAD, None, Some(adv)).metrics == Ledger(4, 10)
  {
  }

  /** The agent posts over the current version. */
  lemma PostNow(s: State, p: Payload) returns (s': State)
    requires HonestlyLeads(INIT, s) && Exists(s, PROVIDER) && Honest(p)
    ensures HonestlyLeads(INIT, s') && s'.reservations == s.reservations
    ensures |s'.workers| == |s.workers| + 1
    ensures var h := s.clusters[PROVIDER];
      s'.clusters == s.clusters[PROVIDER := h + [Version(Merge(p, None, Some(Last(h).advert)), Published)]]
  {
    var w, n := |s.workers|, |s.clusters[PROVIDER]|;
    s' := Then(INIT, s, PublishBegin(PROVIDER, p, None));
    assert s'.workers[w] == Publisher(PostReading(None), PROVIDER, p);
    s' := Then(INIT, s', PostRead(w, Some(n - 1)));
    assert s'.workers[w].post == PostWriting(n - 1, Merge(p, None, Some(s.clusters[PROVIDER][n - 1].advert)));
    s' := Then(INIT, s', PostCommit(w));
  }

  /** After the first lock is recorded, the agent posts ten available again. */
  lemma PostAgain() returns (s: State)
    ensures HonestlyLeads(INIT, s) && Stored(s, 3, 4, 10)
    ensures |s.workers| == 3 && |s.reservations| == 1 && HeldNow(s.reservations[0])
  {
    s := SetupRun();
    LedgerSteps(4, 6);
    s := LockNow(INIT, s, 1, Metrics(TEN, NOTHING, None, TEN));
    s := Then(INIT, s, Mark(1, true, 0));
    assert HeldNow(s.reservations[0]) && |s.clusters[PROVIDER]| == 2;
    MergeFour(Last(s.clusters[PROVIDER]).advert);
    s := PostNow(s, PAYLOAD);
  }

  /**
   The window after a POST. The agent, not yet knowing of the lock of four, posts ten
   available again; a second request of eight is then granted on a cluster of ten.
   */
  lemma PostReopensRoom() returns (s: State)
    ensures HonestlyLeads(INIT, s)
      && (forall i :: 0 <= i < |s.reservations| ==> HeldNow(s.reservations[i]))
      && LedgerOf(s, PROVIDER, Cpu) == 12 > TEN.amount.cpu
  {
    s := SecondRequest();
    LedgerSteps(4, 10);
    s := LockNow(INIT, s, 3, Ledger(4, 10));
    s := Then(INIT, s, Mark(3, true, 0));
    assert HeldNow(s.reservations[1]);
    assert HeldNow(s.reservations[0]);
    StoredLedger(s, 12, -2);
  }

  function MadeEight(): Reservation {
    Made(Unset, false).(request := EIGHT, duration := None)
  }

  /** A request of eight, up to its lock. */
  lemma SecondRequest() returns (s: State)
    ensures HonestlyLeads(INIT, s) && Stored(s, 3, 4, 10)
    ensures |s.reservations| == 2 && HeldNow(s.reservations[0]) && s.reservations[1] == Record([MadeEight()], 0)
    ensures |s.workers| == 4 && s.workers[3] == Keeper(LockReading, 1, 0, MadeEight(), true, None, false)
  {
    s := PostAgain();
    ChoiceIsBest(VIEW, Query(REQUESTER, EIGHT, 0));
    assert Choice(VIEW, Query(REQUESTER, EIGHT, 0)) == Some(0);
    s := Then(INIT, s, HandlerBegin(REQUESTER, EIGHT, None, 0, VIEW));
    assert s.reservations[1] == Record([MadeEight()], 0);
    assert s.workers[3] == Keeper(Finalizing, 1, 0, MadeEight(), true, None, false);
    s := Then(INIT, s, Finalize(3, false, 0, []));
  }

  // ----- an eligible cluster with nothing to allocate -----

  const EMPTY := Payload(NOTHING, NOTHING, NOTHING, 0)

  /** What is stored after a recalculation of the empty record over a ledger of minus four. */
  const PHANTOM := Metrics(NOTHING, NOTHING, Some(ResourceQuantities(Amount(-4, -4), None)),
                           ResourceQuantities(Amount(4, 4), None))

  /** The advertisement reconciler recalculates the current version at time 0 and marks it Active. */
  lemma RecalculateNow(s: State, m: Metrics) returns (s': State)
    requires HonestlyLeads(INIT, s) && Exists(s, PROVIDER) && GpuComplete(m)
    requires Last(s.clusters[PROVIDER]).advert.(active := false) == Advert(m, false, 0, false)
    ensures HonestlyLeads(INIT, s') && Exists(s', PROVIDER)
    ensures Last(s'.clusters[PROVIDER]).advert == Advert(Recalculated(m), false, 0, true)
  {
    var w, n := |s.workers|, |s.clusters[PROVIDER]|;
    var advert := Last(s.clusters[PROVIDER]).advert.(metrics := Recalculated(m));
    var plain := Last(s.clusters[PROVIDER]).advert.(active := false);
    assert plain.metrics == m && !plain.hasCost && plain.timestamp == 0;
    s' := Then(INIT, s, RecalcBegin(PROVIDER, n - 1));
    assert s'.workers[w] == Recalculator(RecalcWriting(n - 1, advert), PROVIDER);
    s' := Then(INIT, s', RecalcCommit(w, true, StaleTest(0, 0)));
    assert s'.clusters[PROVIDER] == s.clusters[PROVIDER] + [Version(advert, Recomputed)];
    assert s'.workers[w] == Recalculator(StatusWriting(n, true, StaleTest(0, 0)), PROVIDER);
    s' := Then(INIT, s', StatusCommit(w));
  }

  /** The double release, then a POST of a cluster with no ready node, then one recalculation. */
  lemma PhantomRecord() returns (s: State)
    ensures HonestlyLeads(INIT, s) && Exists(s, PROVIDER)
    ensures Last(s.clusters[PROVIDER]).advert == Advert(PHANTOM, false, 0, true)
  {
    s := StaleReadRepeatsRelease();
    s := PostNow(s, EMPTY);
    var m := Metrics(NOTHING, NOTHING, Some(ResourceQuantities(Amount(-4, -4), None)), NOTHING);
    assert Last(s.clusters[PROVIDER]).advert.(active := false) == Advert(m, false, 0, false);
    s := RecalculateNow(s, m);
    assert Recalculated(m) == PHANTOM;
  }

  /**
   With honest agents but a run that is not calm, a cluster with nothing to allocate comes to be
   eligible. Its score is +Inf, so every list that contains it is won by a cluster with nothing to allocate.
   */
  lemma NothingWinsEverySelection() returns (s: State)
    ensures HonestlyLeads(INIT, s) && Exists(s, PROVIDER)
    ensures var p := CandidateOf(PROVIDER, Last(s.clusters[PROVIDER]).advert);
      var q := Query(REQUESTER, Amount(1, 1), 0);
      && Eligible(p, q) && p.allocatable == ZERO && CalculateScore(p, q).Infinite?
      && forall list: seq<Candidate> :: p in list ==>
           Choice(list, q).Some? && Choice(list, q).value < |list| && !Scorable(list[Choice(list, q).value])
  {
    s := PhantomRecord();
    var p := CandidateOf(PROVIDER, Last(s.clusters[PROVIDER]).advert);
    var q := Query(REQUESTER, Amount(1, 1), 0);
    assert p == Candidate(PROVIDER, Amount(0, 0), Amount(4, 4), false, true);
    ScoreKinds(p, q);
    forall list: seq<Candidate> | p in list
      ensures Choice(list, q).Some? && Choice(list, q).value < |list| && !Scorable(list[Choice(list, q).value])
    {
      InfiniteWins(list, q, p);
    }
  }

  /**
   The same state, asked for exactly the four that seem available: the score is 0/0, and the
   engine errors although the only cluster is eligible.
   */
  lemma NothingIsChosenThoughEligible() returns (s: State)
    ensures HonestlyLeads(INIT, s) && Exists(s, PROVIDER)
    ensures var p := CandidateOf(PROVIDER, Last(s.clusters[PROVIDER]).advert);
      var q := Query(REQUESTER, FOUR, 0);
      Eligible(p, q) && CalculateScore(p, q).Undefined? && Choice([p], q).None?
  {
    s := PhantomRecord();
    var p := CandidateOf(PROVIDER, Last(s.clusters[PROVIDER]).advert);
    var q := Query(REQUESTER, FOUR, 0);
    assert p == Candidate(PROVIDER, Amount(0, 0), Amount(4, 4), false, true);
    ScoreKinds(p, q);
    SelectionComplete([p], q);
  }

  // ----- the requester's retries -----

  ghost predicate Unfolded(s: R.System) {
    exists events: seq<R.Happening> :: UnfoldsTo(events, s)
  }

  ghost predicate UnfoldsTo(events: seq<R.Happening>, s: R.System) {
    forall t {:trigger R.Unfold(R.START, t)} :: t == events ==> R.Unfold(R.START, t) == s
  }

  lemma And(s: R.System, e: R.Happening) returns (s': R.System)
    requires Unfolded(s)
    ensures s' == R.Advance(s, e) && Unfolded(s')
  {
    var events: seq<R.Happening> :| UnfoldsTo(events, s);
    assert R.Unfold(R.START, events) == s;
    s' := R.Advance(s, e);
    assert (events + [e])[..|events|] == events;
    assert UnfoldsTo(events + [e], s');
  }

  lemma {:induction false} BrokerRuns(s: R.System, events: seq<Event>)
    requires Unfolded(s)
    ensures Unfolded(s.(broker := Exec(s.broker, events)))
  {
    if |events| > 0 {
      var before := events[..|events| - 1];
      BrokerRuns(s, before);
      var s' := And(s.(broker := Exec(s.broker, before)), R.Elsewhere(Last(events)));
    }
  }

  lemma Meanwhile(s: R.System, b: State) returns (s': R.System)
    requires Unfolded(s) && HonestlyLeads(s.broker, b)
    ensures s' == s.(broker := b) && Unfolded(s')
  {
    var events: seq<Event> :| Ran(s.broker, events, b);
    assert Exec(s.broker, events) == b;
    BrokerRuns(s, events);
    s' := s.(broker := b);
  }

  function Asking(versions: seq<R.Status>): R.Request {
    R.Request(REQUESTER, 0, FOUR, Some(60), 0, versions)
  }

  const WAITING := R.Status(R.Waiting, NO_ID, 0)

  /** The provider advertised, the request announced, and the client about to call. */
  lemma AboutToCall() returns (s: R.System)
    ensures Unfolded(s) && s.instructions == map[]
    ensures s.requests == [Asking([R.NEW, WAITING])] && s.calls == [R.Call(R.Calling(0, None), 0, 1)]
    ensures s.broker == State(Setup().clusters, [], [Publisher(PostDone, PROVIDER, PAYLOAD)])
  {
    s := R.START;
    assert UnfoldsTo([], s);
    s := And(s, R.Submit(REQUESTER, 0, FOUR, Some(60), 0));
    assert s.requests == [Asking([R.NEW])];
    s := And(s, R.Begin(0, 0, true));
    s := And(s, R.Announce(0, true));
    assert s.requests[0].versions == [R.NEW, WAITING];
    assert s.requests == [Asking([R.NEW, WAITING])];
    var b := Advertised();
    s := Meanwhile(s, b);
  }

  lemma Advertised() returns (b: State)
    ensures HonestlyLeads(INIT, b) && b == State(Setup().clusters, [], [Publisher(PostDone, PROVIDER, PAYLOAD)])
  {
    HonestlyStays(INIT);
    b := Then(INIT, INIT, PublishBegin(PROVIDER, PAYLOAD, None));
    b := Then(INIT, b, PostRead(0, None));
    b := Then(INIT, b, PostCommit(0));
    assert b.clusters == Setup().clusters;
  }

  lemma ProviderIsChosen()
    ensures Choice(VIEW, Query(REQUESTER, FOUR, 0)) == Some(0)
  {
    ChoiceIsBest(VIEW, Query(REQUESTER, FOUR, 0));
  }

  /** An attempt that reaches the broker begins handler h on reservation rid. */
  lemma Attempt(s: R.System, tries: nat, last: Option<nat>) returns (s': R.System)
    requires Unfolded(s) && tries <= R.MAX_RETRIES
    requires s.requests == [Asking([R.NEW, WAITING])] && s.calls == [R.Call(R.Calling(tries, last), 0, 1)]
    ensures Unfolded(s') && s'.requests == s.requests && s'.instructions == s.instructions
    ensures var h, rid := |s.broker.workers|, |s.broker.reservations|;
      && s'.calls == [R.Call(R.Calling(tries + 1, Some(h)), 0, 1)]
      && s'.broker == State(s.broker.clusters, s.broker.reservations + [Record([Made(Unset, false)], 0)],
                            s.broker.workers + [Keeper(Finalizing, rid, 0, Made(Unset, false), true, None, false)])
  {
    ProviderIsChosen();
    s' := And(s, R.Send(0, VIEW));
  }

  /** Handler h runs to its answer without interference, on a provider whose stored metrics are m. */
  lemma Served(s: R.System, h: nat, rid: nat, m: Metrics) returns (s': R.System)
    requires Unfolded(s) && h < |s.broker.workers| && rid < |s.broker.reservations|
    requires s.broker.workers[h] == Keeper(Finalizing, rid, 0, Made(Unset, false), true, None, false)
    requires s.broker.reservations[rid] == Record([Made(Unset, false)], 0)
    requires Exists(s.broker, PROVIDER) && Last(s.broker.clusters[PROVIDER]).advert.metrics == m
    requires GpuComplete(m) && CanReserve(m, FOUR)
    ensures Unfolded(s') && s' == s.(broker := s'.broker)
    ensures Exists(s'.broker, PROVIDER) && Last(s'.broker.clusters[PROVIDER]).advert.metrics == Locked(m, FOUR)
    ensures |s'.broker.workers| == |s.broker.workers| && |s'.broker.reservations| == |s.broker.reservations|
    ensures s'.broker.workers[h].Keeper? && s'.broker.workers[h].answered
    ensures ReplyOf(s'.broker.workers[h]) == Reply(rid, PROVIDER, FOUR)
  {
    var b := s.broker;
    HonestlyStays(b);
    b := Then(s.broker, b, Finalize(h, true, 0, []));
    assert b.workers[h] == Keeper(LockReading, rid, 1, Made(Unset, true), true, None, false);
    b := LockNow(s.broker, b, h, m);
    b := Then(s.broker, b, Mark(h, true, 0));
    s' := Meanwhile(s, b);
  }

  /**
   The answer to the first attempt is lost, the client tries again, and the second handler
   locks again: one granted request of four holds eight, and only four has an instruction.
   */
  lemma LostAnswerLocksTwice() returns (s: R.System)
    ensures Unfolded(s)
      && s.requests == [Asking([R.NEW, WAITING, R.Status(R.Granted, PROVIDER, 1)])]
      && s.instructions.Keys == {R.Key(REQUESTER, 0, 1)}
      && LedgerOf(s.broker, PROVIDER, Cpu) == 8
  {
    s := AboutToCall();
    LedgerSteps(4, 6);
    s := Attempt(s, 0, None);
    s := Served(s, 1, 0, Metrics(TEN, NOTHING, None, TEN));
    s := Attempt(s, 1, Some(1));
    s := Served(s, 2, 1, Ledger(4, 6));
    StoredLedger(s.broker, 8, 2);
    s := And(s, R.Receive(0));
    s := And(s, R.Note(0, true));
    s := And(s, R.Settle(0, true));
    assert s.requests[0].versions == [R.NEW, WAITING, R.Status(R.Granted, PROVIDER, 1)];
  }
}
