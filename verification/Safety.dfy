/**
 Safety over every run: arbitrary interleavings, stale reads, crashes and failed writes.
 */
module Safety {
  import opened Quantities
  import opened Availability
  import opened Protocol
  import opened History
  import opened Invariant

  // ----- reachable states -----

  lemma ReachableKeeps(s: State)
    requires Reachable(s)
    ensures Inv(s)
  {
    var events: seq<Event> :| Ran(INIT, events, s);
    assert Exec(INIT, events) == s;
    EveryRunKeeps(events);
  }

  /** Each stored version was derived from the one before it, however stale the snapshots. */
  lemma EveryHistoryIsSerial(s: State, c: ClusterId)
    requires Reachable(s) && c in s.clusters
    ensures Serial(s.clusters[c])
  {
    ReachableKeeps(s);
  }

  lemma ReachableLifeline(s: State, rid: nat)
    requires Reachable(s) && rid < |s.reservations|
    ensures Lifeline(s.reservations[rid].versions)
  {
    ReachableKeeps(s);
    assert RecordOK(s.reservations[rid]);
  }

  /** Whatever happens, a keeper's reservation stays where it is, and a write finds its object. */
  lemma KeeperInPlace(s: State, w: nat)
    requires Reachable(s) && w < |s.workers| && s.workers[w].Keeper?
    ensures KeeperAt(s, w)
    ensures s.workers[w].snap.target in s.clusters ==> Exists(s, s.workers[w].snap.target)
    ensures s.workers[w].pc.LockWriting? || s.workers[w].pc.FreeWriting? ==> Exists(s, s.workers[w].snap.target)
  {
    ReachableKeeps(s);
    assert WorkerOK(s.clusters, s.reservations, w, s.workers[w]);
  }

  // ----- the ledger -----

  /** No lost update, for every version ever stored. */
  lemma NoLostUpdate(s: State, c: ClusterId, j: nat, k: Resource)
    requires Reachable(s) && c in s.clusters && j < |s.clusters[c]|
    ensures Of(ReservedAmount(s.clusters[c][j].advert.metrics), k) == NetCommitted(s.clusters[c][..j + 1], k)
  {
    EveryHistoryIsSerial(s, c);
    SerialPrefix(s.clusters[c], j + 1);
    LedgerIsNetOfCommits(s.clusters[c][..j + 1], k);
  }

  /** A POST, whatever its agent echoed, stores exactly the ledger of the version it replaced. */
  lemma PostKeepsLedger(s: State, c: ClusterId, j: nat)
    requires Reachable(s) && c in s.clusters && 0 < j < |s.clusters[c]| && s.clusters[c][j].origin.Published?
    ensures s.clusters[c][j].advert.metrics.reserved == s.clusters[c][j - 1].advert.metrics.reserved
  {
    EveryHistoryIsSerial(s, c);
    assert LedgerStep(s.clusters[c][j - 1], s.clusters[c][j]);
  }

  /** When the handler's current record has no ledger, the agent's earlier GET saw none either. */
  lemma AbsentLedgerWasAbsentBefore(s: State, c: ClusterId, i: nat, j: nat)
    requires Reachable(s) && c in s.clusters && i <= j < |s.clusters[c]|
    requires s.clusters[c][j].advert.metrics.reserved.None?
    ensures s.clusters[c][i].advert.metrics.reserved.None?
  {
    EveryHistoryIsSerial(s, c);
    if s.clusters[c][i].advert.metrics.reserved.Some? {
      LedgerStaysPresent(s.clusters[c], i, j);
    }
  }

  /** The ledger of a cluster is the sum over reservations of what each accounts for. */
  lemma LedgerIsSumOfReservations(s: State, c: ClusterId, k: Resource)
    requires Reachable(s)
    ensures LedgerOf(s, c, k) == SumAt(s.reservations, c, k)
  {
    ReachableKeeps(s);
  }

  // ----- no double-booking -----

  predicate CommitsLock(s: State, w: nat) {
    && KeeperAt(s, w) && s.workers[w].pc.LockWriting?
    && Exists(s, s.workers[w].snap.target)
    && s.workers[w].pc.base + 1 == |s.clusters[s.workers[w].snap.target]|
  }

  /**
   A lock committed on a record recalculated since its last POST leaves room for
   everything held: all shares and the pods together fit in what is allocatable.
   */
  lemma NoDoubleBooking(s: State, w: nat, s': State, k: Resource)
    requires Reachable(s) && Did(s, LockCommit(w), s')
    requires CommitsLock(s, w) && Settled(s.clusters[s.workers[w].snap.target])
    ensures var c := s.workers[w].snap.target;
      && Exists(s', c)
      && var m := Last(s'.clusters[c]).advert.metrics;
        && ZERO.AtMost(m.available.amount) && Consistent(m)
        && SumAt(s'.reservations, c, k) + Of(m.inUse.amount, k) <= Of(m.allocatable.amount, k)
  {
    DidLeads(INIT, s, LockCommit(w), s');
    ReachableKeeps(s);
    ReachableKeeps(s');
    assert Next(s, LockCommit(w)) == s';
    SettledLockFits(s, w, k);
  }

  /**
   And it stays so: once a settled version has room left, then until the next POST the newest
   record is consistent, and everything held fits with the pods in what is allocatable.
   */
  lemma NoDoubleBookingUntilPost(s: State, c: ClusterId, i: nat, k: Resource)
    requires Reachable(s) && c in s.clusters && i < |s.clusters[c]| && Settled(s.clusters[c][..i + 1])
    requires Of(s.clusters[c][i].advert.metrics.available.amount, k) >= 0
    requires forall n :: i < n < |s.clusters[c]| ==> !s.clusters[c][n].origin.Published?
    ensures var m := Last(s.clusters[c]).advert.metrics;
      && Consistent(m) && Of(m.available.amount, k) >= 0
      && SumAt(s.reservations, c, k) + Of(m.inUse.amount, k) <= Of(m.allocatable.amount, k)
  {
    EveryHistoryIsSerial(s, c);
    var h := s.clusters[c];
    RoomStays(h, i, |h| - 1, k);
    SettledUntilPost(h, i, |h| - 1);
    assert h[..|h|] == h;
    SettledIsConsistent(h);
    LedgerIsSumOfReservations(s, c, k);
  }

  lemma SettledLockFits(s: State, w: nat, k: Resource)
    requires Inv(s) && Inv(DoLockCommit(s, w)) && CommitsLock(s, w)
    requires Settled(s.clusters[s.workers[w].snap.target])
    ensures var c := s.workers[w].snap.target;
      var s' := DoLockCommit(s, w);
      var m := Last(s'.clusters[c]).advert.metrics;
      && ZERO.AtMost(m.available.amount) && Consistent(m)
      && SumAt(s'.reservations, c, k) + Of(m.inUse.amount, k) <= Of(m.allocatable.amount, k)
  {
    var wk := s.workers[w];
    var c := wk.snap.target;
    assert WorkerOK(s.clusters, s.reservations, w, wk);
    SettledIsConsistent(s.clusters[c]);
    LockLeavesHeadroom(Last(s.clusters[c]).advert.metrics, wk.snap.request);
    assert LedgerOf(DoLockCommit(s, w), c, k) == SumAt(DoLockCommit(s, w).reservations, c, k);
  }

  /** Between two POSTs at most one lock leaves Available negative: the first. */
  lemma AtMostOneOverdraft(s: State, c: ClusterId, i: nat, j: nat)
    requires Reachable(s) && c in s.clusters && i < j < |s.clusters[c]|
    requires s.clusters[c][i].origin.LockedBy? && s.clusters[c][j].origin.LockedBy?
    requires forall k :: i < k < j ==> !s.clusters[c][k].origin.Published?
    ensures ZERO.AtMost(s.clusters[c][j].advert.metrics.available.amount)
  {
    EveryHistoryIsSerial(s, c);
    LaterLocksFit(s.clusters[c], i, j);
  }

  /** And that first lock goes below zero by at most what the ledger holds and the provider had not yet counted. */
  lemma OverdraftIsBounded(s: State, c: ClusterId, p: nat, j: nat, counted: Amount, k: Resource)
    requires Reachable(s) && c in s.clusters && p < j < |s.clusters[c]|
    requires s.clusters[c][p].origin.Published? && s.clusters[c][j].origin.LockedBy?
    requires forall i :: p < i < j ==> s.clusters[c][i].origin.StatusSet?
    requires var posted := s.clusters[c][p].advert.metrics;
      posted.available.amount == ClampedAvailable(posted, counted)
    ensures Of(counted, k) - Of(ReservedAmount(s.clusters[c][p].advert.metrics), k)
         <= Of(s.clusters[c][j].advert.metrics.available.amount, k)
  {
    EveryHistoryIsSerial(s, c);
    FirstLockDeficit(s.clusters[c], p, j, counted, k);
  }

  // ----- reservations -----

  /** Phases only move forward, terminal ones absorb, and what the creator asked for never changes. */
  lemma PhasesMoveForward(s: State, rid: nat, i: nat, j: nat)
    requires Reachable(s) && rid < |s.reservations| && i <= j < |s.reservations[rid].versions|
    ensures var v := s.reservations[rid].versions;
      && Rank(v[i].phase) <= Rank(v[j].phase)
      && (Rank(v[i].phase) == Rank(v[j].phase) ==> v[i].phase == v[j].phase)
      && v[i].request == v[j].request && v[i].requester == v[j].requester
      && PhaseChanges(v) <= 3
  {
    ReachableLifeline(s, rid);
    LifelineForward(s.reservations[rid].versions, i, j);
    AtMostThreeChanges(s.reservations[rid].versions);
  }

  predicate LockOf(o: Origin, w: nat) {
    o.LockedBy? && o.worker == w
  }

  /** A keeper about to write Failed has committed no lock. */
  lemma FailedMeansNoLock(s: State, w: nat)
    requires Reachable(s) && KeeperAt(s, w) && s.workers[w].pc == Marking(Failed)
    ensures forall c, j :: c in s.clusters && 0 <= j < |s.clusters[c]| ==> !LockOf(s.clusters[c][j].origin, w)
  {
    ReachableKeeps(s);
    assert WorkerOK(s.clusters, s.reservations, w, s.workers[w]);
    forall c, j | c in s.clusters && 0 <= j < |s.clusters[c]|
      ensures !LockOf(s.clusters[c][j].origin, w)
    {
      assert Claimed(s.workers, c, j, s.clusters[c][j].origin);
    }
  }

  // ----- the answer of the reservation handler -----

  /** What the handler puts into its answer. */
  datatype Reply = Reply(rid: nat, target: ClusterId, request: Amount)

  function ReplyOf(wk: Worker): Reply
    requires wk.Keeper?
  {
    Reply(wk.rid, wk.snap.target, wk.snap.request)
  }

  predicate SameRequest(a: Worker, b: Worker) {
    a.Keeper? && b.Keeper? && a.rid == b.rid && a.handler == b.handler
    && a.snap.request == b.snap.request && a.snap.requester == b.snap.requester
  }

  lemma MarkKeepsRequest(s: State, w: nat, ok: bool, now: int)
    requires w < |s.workers| && s.workers[w].Keeper?
    ensures w < |DoMark(s, w, ok, now).workers| && SameRequest(s.workers[w], DoMark(s, w, ok, now).workers[w])
  {
  }

  lemma ReadsKeepRequest(s: State, e: Event, w: nat)
    requires w < |s.workers| && s.workers[w].Keeper? && Actor(e) == Some(w)
    requires e.LockRead? || e.LockGiveUp? || e.FreeRead? || e.Abort?
    ensures w < |Next(s, e).workers| && SameRequest(s.workers[w], Next(s, e).workers[w])
  {
  }

  lemma WritesKeepRequest(s: State, e: Event, w: nat)
    requires w < |s.workers| && s.workers[w].Keeper? && Actor(e) == Some(w)
    requires e.Finalize? || e.Retarget? || e.Unfinalize? || e.LockCommit? || e.FreeCommit?
    ensures w < |Next(s, e).workers| && SameRequest(s.workers[w], Next(s, e).workers[w])
  {
  }

  lemma OwnStepKeepsRequest(s: State, e: Event, w: nat)
    requires w < |s.workers| && s.workers[w].Keeper? && Actor(e) == Some(w)
    ensures w < |Next(s, e).workers| && SameRequest(s.workers[w], Next(s, e).workers[w])
  {
    if e.Mark? {
      MarkKeepsRequest(s, w, e.ok, e.now);
    } else if e.Finalize? || e.Retarget? || e.Unfinalize? || e.LockCommit? || e.FreeCommit? {
      WritesKeepRequest(s, e, w);
    } else if e.LockRead? || e.LockGiveUp? || e.FreeRead? || e.Abort? {
      ReadsKeepRequest(s, e, w);
    }
  }

  /** No event changes whom or what a keeper works for. */
  lemma StepKeepsRequest(s: State, e: Event, w: nat)
    requires w < |s.workers| && s.workers[w].Keeper?
    ensures w < |Next(s, e).workers| && SameRequest(s.workers[w], Next(s, e).workers[w])
  {
    if Actor(e) == Some(w) {
      OwnStepKeepsRequest(s, e, w);
    } else {
      OthersKeepWorker(s, e, w);
    }
  }

  /** Along any run, whom and what a keeper works for stays the same. */
  lemma LeadsKeepsRequest(s: State, s': State, w: nat)
    requires Leads(s, s') && w < |s.workers| && s.workers[w].Keeper?
    ensures w < |s'.workers| && SameRequest(s.workers[w], s'.workers[w])
  {
    var events: seq<Event> :| Ran(s, events, s');
    assert Exec(s, events) == s';
    ExecKeepsRequest(s, events, w);
  }

  lemma {:induction false} ExecKeepsRequest(s: State, events: seq<Event>, w: nat)
    requires w < |s.workers| && s.workers[w].Keeper?
    ensures w < |Exec(s, events).workers| && SameRequest(s.workers[w], Exec(s, events).workers[w])
  {
    if |events| > 0 {
      ExecKeepsRequest(s, events[..|events| - 1], w);
      StepKeepsRequest(Exec(s, events[..|events| - 1]), Last(events), w);
    }
  }

  /** Exactly one version of exactly one cluster was written by keeper w's lock: version j of cluster c, for q. */
  ghost predicate ExactlyOneLock(s: State, w: nat, c: ClusterId, q: Amount) {
    exists j :: 0 <= j && OnlyLock(s, w, c, j, q)
  }

  ghost predicate OnlyLock(s: State, w: nat, c: ClusterId, j: int, q: Amount) {
    && c in s.clusters && 0 <= j < |s.clusters[c]|
    && s.clusters[c][j].origin == LockedBy(w, q)
    && forall d, i :: d in s.clusters && 0 <= i < |s.clusters[d]| ==>
         (LockOf(s.clusters[d][i].origin, w) <==> d == c && i == j)
  }

  /** An answered handler call committed exactly one lock, for its request, on a cluster that is not the requester's. */
  lemma AnsweredMeansOneLock(s: State, w: nat)
    requires Reachable(s) && KeeperAt(s, w) && s.workers[w].answered
    ensures var snap := s.workers[w].snap;
      ExactlyOneLock(s, w, snap.target, snap.request) && snap.target != snap.requester
  {
    ReachableKeeps(s);
    var wk := s.workers[w];
    assert WorkerOK(s.clusters, s.reservations, w, wk);
    var j := wk.lockedAt.value;
    forall d, i | d in s.clusters && 0 <= i < |s.clusters[d]|
      ensures LockOf(s.clusters[d][i].origin, w) <==> d == wk.snap.target && i == j
    {
      assert Claimed(s.workers, d, i, s.clusters[d][i].origin);
    }
    assert OnlyLock(s, w, wk.snap.target, j, wk.snap.request);
  }

  // ----- what events do to a history -----

  lemma VersionsPersist(s: State, e: Event, rid: nat)
    requires rid < |s.reservations|
    ensures rid < |Next(s, e).reservations|
    ensures s.reservations[rid].versions <= Next(s, e).reservations[rid].versions
  {
  }

  lemma {:induction false} VersionsStay(s: State, events: seq<Event>, rid: nat)
    requires rid < |s.reservations|
    ensures rid < |Exec(s, events).reservations|
    ensures s.reservations[rid].versions <= Exec(s, events).reservations[rid].versions
  {
    if |events| > 0 {
      VersionsStay(s, events[..|events| - 1], rid);
      VersionsPersist(Exec(s, events[..|events| - 1]), Last(events), rid);
    }
  }

  /** The one cluster an event may give a new version to. */
  function Touched(s: State, e: Event): ClusterId {
    if Actor(e).None? || Actor(e).value >= |s.workers| then NO_ID
    else match s.workers[Actor(e).value]
      case Keeper(_, _, _, snap, _, _, _) => snap.target
      case Publisher(_, cluster, _) => cluster
      case Recalculator(_, cluster) => cluster
  }

  lemma OneNewVersion(s: State, e: Event, c: ClusterId)
    requires c in Next(s, e).clusters
    ensures c in s.clusters ==>
      Next(s, e).clusters[c] == s.clusters[c]
      || (c == Touched(s, e) && |Next(s, e).clusters[c]| == |s.clusters[c]| + 1
          && s.clusters[c] <= Next(s, e).clusters[c])
    ensures c !in s.clusters ==> e.PostCommit? && c == Touched(s, e) && |Next(s, e).clusters[c]| == 1
    ensures c !in s.clusters || Next(s, e).clusters[c] != s.clusters[c] ==>
      (Last(Next(s, e).clusters[c]).origin.Published? ==>
        && e.PostCommit? && s.workers[e.w].Publisher?
        && (s.workers[e.w].post.PostWriting? || s.workers[e.w].post.PostCreating?)
        && Last(Next(s, e).clusters[c]).advert == s.workers[e.w].post.copy)
  {
  }

  lemma ClustersGrow(s: State, e: Event, c: ClusterId)
    requires c in s.clusters
    ensures c in Next(s, e).clusters && s.clusters[c] <= Next(s, e).clusters[c]
  {
  }

  lemma {:induction false} ClustersStay(s: State, events: seq<Event>, c: ClusterId)
    requires c in s.clusters
    ensures c in Exec(s, events).clusters && s.clusters[c] <= Exec(s, events).clusters[c]
  {
    if |events| > 0 {
      ClustersStay(s, events[..|events| - 1], c);
      ClustersGrow(Exec(s, events[..|events| - 1]), Last(events), c);
    }
  }

  lemma OtherKindsStay(s: State, e: Event, w: nat)
    requires w < |s.workers| && !s.workers[w].Keeper? && Actor(e) == Some(w)
    ensures w < |Next(s, e).workers| && !Next(s, e).workers[w].Keeper?
  {
  }

  // ----- what a release finds -----

  predicate LockedUpTo(h: seq<Version>, b: nat)
    requires b < |h|
  {
    exists j :: 0 <= j <= b && h[j].origin.LockedBy?
  }

  /**
   A release that reads version b of its target goes on exactly when some lock was committed at
   or before b, and the record can be recalculated; otherwise its reconcile ends with nothing done.
   */
  lemma ReleaseReadExactly(s: State, w: nat, b: nat, s': State)
    requires Reachable(s) && KeeperAt(s, w) && s.workers[w].pc == FreeReading
    requires s.workers[w].snap.target in s.clusters && b < |s.clusters[s.workers[w].snap.target]|
    requires Did(s, FreeRead(w, Some(b)), s')
    ensures var h := s.clusters[s.workers[w].snap.target];
      && KeeperAt(s', w) && s'.clusters == s.clusters && s'.reservations == s.reservations
      && (s'.workers[w].pc.FreeWriting? <==> LockedUpTo(h, b) && GpuComplete(h[b].advert.metrics))
      && (!s'.workers[w].pc.FreeWriting? ==> s'.workers[w].pc == Idle)
  {
    EveryHistoryIsSerial(s, s.workers[w].snap.target);
    LedgerSinceFirstLock(s.clusters[s.workers[w].snap.target], b);
    assert Next(s, FreeRead(w, Some(b))) == s';
  }

  /** Every release ever committed had a ledger to take from, in the version it replaced. */
  lemma CommittedReleaseHadLedger(s: State, c: ClusterId, j: nat)
    requires Reachable(s) && c in s.clusters && j < |s.clusters[c]| && s.clusters[c][j].origin.FreedBy?
    ensures j > 0 && s.clusters[c][j - 1].advert.metrics.reserved.Some? && LockedUpTo(s.clusters[c], j - 1)
  {
    EveryHistoryIsSerial(s, c);
    assert LedgerStep(s.clusters[c][j - 1], s.clusters[c][j]);
    LedgerSinceFirstLock(s.clusters[c], j - 1);
  }
}
