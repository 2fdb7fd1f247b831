/**
 What single steps do to one stored object, and what follows for its whole history.
 Invariant.dfy shows that every history of every run is built from these steps.
 */
module History {
  import opened Quantities
  import opened Availability
  import opened Protocol

  // ----- advertisements -----

  /** Each version is computed from its immediate predecessor, never from an older one. */
  predicate LedgerStep(a: Version, b: Version) {
    var m := a.advert.metrics;
    match b.origin
    case Published => b.advert.metrics.reserved == m.reserved && b.advert.active == a.advert.active
    case LockedBy(_, q) =>
      && GpuComplete(m) && CanReserve(m, q) && q.Positive()
      && b.advert == a.advert.(metrics := Locked(m, q))
    case FreedBy(_, q) =>
      && GpuComplete(m) && m.reserved.Some? && q.Positive()
      && b.advert == a.advert.(metrics := Freed(m, q))
    case Recomputed => GpuComplete(m) && b.advert == a.advert.(metrics := Recalculated(m))
    case StatusSet(_) => b.advert == a.advert.(active := b.advert.active)
  }

  ghost predicate Serial(h: seq<Version>) {
    && |h| > 0
    && h[0].origin.Published? && h[0].advert.metrics.reserved.None? && !h[0].advert.active
    && forall i, j :: 0 <= i && j == i + 1 && j < |h| ==> LedgerStep(h[i], h[j])
  }

  function Units(o: Origin): int {
    if o.LockedBy? then 1 else if o.FreedBy? then -1 else 0
  }

  /** What one committed write adds to the ledger. */
  function Delta(o: Origin, k: Resource): int {
    match o
    case LockedBy(_, q) => Of(q, k)
    case FreedBy(_, q) => -Of(q, k)
    case _ => 0
  }

  /** Sum of the committed locks minus the sum of the committed releases. */
  function NetCommitted(h: seq<Version>, k: Resource): int {
    if |h| == 0 then 0 else NetCommitted(h[..|h| - 1], k) + Delta(Last(h).origin, k)
  }

  lemma SerialPrefix(h: seq<Version>, n: nat)
    requires Serial(h) && 0 < n <= |h|
    ensures Serial(h[..n])
  {
  }

  lemma SerialSnoc(h: seq<Version>, v: Version)
    requires Serial(h) && LedgerStep(Last(h), v)
    ensures Serial(h + [v])
  {
  }

  lemma StepMovesLedger(a: Version, b: Version, k: Resource)
    requires LedgerStep(a, b)
    ensures Of(ReservedAmount(b.advert.metrics), k) == Of(ReservedAmount(a.advert.metrics), k) + Delta(b.origin, k)
  {
  }

  /** No lost update: the stored ledger is exactly the net of everything ever committed. */
  lemma {:induction false} LedgerIsNetOfCommits(h: seq<Version>, k: Resource)
    requires Serial(h)
    ensures Of(ReservedAmount(Last(h).advert.metrics), k) == NetCommitted(h, k)
  {
    var n := |h| - 1;
    if n > 0 {
      SerialPrefix(h, n);
      LedgerIsNetOfCommits(h[..n], k);
      StepMovesLedger(h[n - 1], h[n], k);
    }
  }

  /** Once a ledger exists it is never absent again. */
  lemma {:induction false} LedgerStaysPresent(h: seq<Version>, i: nat, j: nat)
    requires Serial(h) && i <= j < |h|
    requires h[i].advert.metrics.reserved.Some?
    ensures h[j].advert.metrics.reserved.Some?
    decreases j - i
  {
    if i < j {
      assert LedgerStep(h[i], h[i + 1]);
      LedgerStaysPresent(h, i + 1, j);
    }
  }

  /** A version has a ledger exactly when a lock was committed at or before it. */
  lemma {:induction false} LedgerSinceFirstLock(h: seq<Version>, b: nat)
    requires Serial(h) && b < |h|
    ensures h[b].advert.metrics.reserved.Some? <==> exists j :: 0 <= j <= b && h[j].origin.LockedBy?
  {
    if b > 0 {
      LedgerSinceFirstLock(h, b - 1);
      assert LedgerStep(h[b - 1], h[b]);
      if h[b].origin.LockedBy? {
        assert h[b].advert.metrics.reserved.Some?;
      }
    }
  }

  /** Some ledger write happened after the last POST. */
  predicate Settled(h: seq<Version>)
    requires |h| > 0
  {
    match Last(h).origin
    case Published => false
    case StatusSet(_) => |h| > 1 && Settled(h[..|h| - 1])
    case _ => true
  }

  /** In a settled record Available is Allocatable - Allocated - Reserved. */
  lemma {:induction false} SettledIsConsistent(h: seq<Version>)
    requires Serial(h) && Settled(h)
    ensures Consistent(Last(h).advert.metrics)
  {
    var n := |h| - 1;
    assert n > 0 && LedgerStep(h[n - 1], h[n]);
    if h[n].origin.StatusSet? {
      SerialPrefix(h, n);
      SettledIsConsistent(h[..n]);
    }
  }

  lemma {:induction false} SettledUntilPost(h: seq<Version>, i: nat, j: nat)
    requires i <= j < |h| && Settled(h[..i + 1])
    requires forall k :: i < k <= j ==> !h[k].origin.Published?
    ensures Settled(h[..j + 1])
    decreases j - i
  {
    if i < j {
      SettledUntilPost(h, i, j - 1);
      assert h[..j + 1][..j] == h[..j];
    }
  }

  /** Once a settled version has room left, every version until the next POST has. */
  lemma {:induction false} RoomStays(h: seq<Version>, i: nat, j: nat, k: Resource)
    requires Serial(h) && i <= j < |h| && Settled(h[..i + 1])
    requires Of(h[i].advert.metrics.available.amount, k) >= 0
    requires forall n :: i < n <= j ==> !h[n].origin.Published?
    ensures Of(h[j].advert.metrics.available.amount, k) >= 0
    decreases j - i
  {
    if i < j {
      RoomStays(h, i, j - 1, k);
      SettledUntilPost(h, i, j - 1);
      SerialPrefix(h, j);
      SettledIsConsistent(h[..j]);
      assert LedgerStep(h[j - 1], h[j]);
    }
  }

  /** Of the locks committed between two POSTs only the first can leave Available negative. */
  lemma LaterLocksFit(h: seq<Version>, i: nat, j: nat)
    requires Serial(h) && i < j < |h|
    requires h[i].origin.LockedBy? && h[j].origin.LockedBy?
    requires forall k :: i < k < j ==> !h[k].origin.Published?
    ensures ZERO.AtMost(h[j].advert.metrics.available.amount)
    ensures h[j].origin.request.AtMost(Headroom(h[j - 1].advert.metrics))
  {
    assert Settled(h[..i + 1]);
    SettledUntilPost(h, i, j - 1);
    SerialPrefix(h, j);
    SettledIsConsistent(h[..j]);
    assert LedgerStep(h[j - 1], h[j]);
  }

  lemma {:induction false} StatusWritesKeepMetrics(h: seq<Version>, p: nat, j: nat)
    requires Serial(h) && p <= j < |h|
    requires forall k :: p < k <= j ==> h[k].origin.StatusSet?
    ensures h[j].advert.metrics == h[p].advert.metrics
    decreases j - p
  {
    if p < j {
      StatusWritesKeepMetrics(h, p, j - 1);
      assert LedgerStep(h[j - 1], h[j]);
    }
  }

  function ClampedAvailable(m: Metrics, counted: Amount): Amount {
    Amount(Max(0, m.allocatable.amount.cpu - m.inUse.amount.cpu - counted.cpu),
           Max(0, m.allocatable.amount.memory - m.inUse.amount.memory - counted.memory))
  }

  /**
   The first lock after a POST, when the agent had already counted `counted`:
   Available falls at most to what the provider counted minus the ledger.
   */
  lemma FirstLockDeficit(h: seq<Version>, p: nat, j: nat, counted: Amount, k: Resource)
    requires Serial(h) && p < j < |h|
    requires h[p].origin.Published? && h[j].origin.LockedBy?
    requires forall i :: p < i < j ==> h[i].origin.StatusSet?
    requires h[p].advert.metrics.available.amount == ClampedAvailable(h[p].advert.metrics, counted)
    ensures Of(counted, k) - Of(ReservedAmount(h[p].advert.metrics), k) <= Of(h[j].advert.metrics.available.amount, k)
  {
    StatusWritesKeepMetrics(h, p, j - 1);
    assert LedgerStep(h[j - 1], h[j]);
    BoundedDeficit(h[j - 1].advert.metrics, counted, h[j].origin.request);
  }

  // ----- reservations -----

  predicate Open(p: Phase) {
    p == Unset || p == Pending
  }

  function Rank(p: Phase): nat {
    match p
    case Unset | Pending => 0
    case Reserved => 1
    case Active => 2
    case Failed | Released => 3
  }

  predicate MayFollow(p: Phase, p': Phase) {
    || (Open(p) && (p' == Reserved || p' == Failed))
    || (p == Reserved && (p' == Active || p' == Released))
    || (p == Active && p' == Released)
  }

  predicate PhaseBacked(r: Reservation) {
    HeldPhase(r.phase) || r.phase == Released ==> ValidSpec(r) && r.target != NO_ID
  }

  /** Deletion only marks an object that has its finalizer; without it the object is gone. */
  predicate DeletionWaits(r: Reservation) {
    r.deleting ==> r.finalizer || r.gone
  }

  predicate LifeStep(a: Reservation, b: Reservation) {
    && !a.gone
    && b.requester == a.requester && b.request == a.request && b.duration == a.duration && b.priority == a.priority
    && (a.target != NO_ID ==> b.target == a.target)
    && (b.phase == a.phase || MayFollow(a.phase, b.phase))
    && (HeldPhase(a.phase) ==> b.expiresAt == a.expiresAt)
    && PhaseBacked(b) && DeletionWaits(b)
  }

  ghost predicate Lifeline(v: seq<Reservation>) {
    && |v| > 0
    && v[0].phase == Unset && !v[0].gone && !v[0].deleting
    && forall i, j :: 0 <= i && j == i + 1 && j < |v| ==> LifeStep(v[i], v[j])
  }

  lemma LifelineSnoc(v: seq<Reservation>, r: Reservation)
    requires Lifeline(v) && LifeStep(Last(v), r)
    ensures Lifeline(v + [r])
  {
  }

  /** What the creator fixed stays fixed, phases never go back, and terminal phases absorb. */
  lemma {:induction false} LifelineForward(v: seq<Reservation>, i: nat, j: nat)
    requires Lifeline(v) && i <= j < |v|
    ensures v[j].request == v[i].request && v[j].requester == v[i].requester
    ensures v[i].target != NO_ID ==> v[j].target == v[i].target
    ensures Rank(v[i].phase) <= Rank(v[j].phase)
    ensures Rank(v[i].phase) == Rank(v[j].phase) ==> v[i].phase == v[j].phase
    ensures PhaseBacked(v[i]) && DeletionWaits(v[i])
    ensures i < j ==> !v[i].gone
    decreases j - i
  {
    if 0 < i {
      assert LifeStep(v[i - 1], v[i]);
    }
    if i < j {
      LifelineForward(v, i + 1, j);
      assert LifeStep(v[i], v[i + 1]);
      NeverPending(v, i);
      NeverPending(v, i + 1);
    }
  }

  lemma {:induction false} NeverPending(v: seq<Reservation>, i: nat)
    requires Lifeline(v) && i < |v|
    ensures v[i].phase != Pending
  {
    if i > 0 {
      NeverPending(v, i - 1);
      assert LifeStep(v[i - 1], v[i]);
    }
  }

  /** A held reservation can only go on to be Active or Released, and keeps its deadline while it is held. */
  lemma {:induction false} HeldOnward(v: seq<Reservation>, i: nat, j: nat)
    requires Lifeline(v) && i <= j < |v| && HeldPhase(v[i].phase)
    ensures HeldPhase(v[j].phase) || v[j].phase == Released
    ensures HeldPhase(v[j].phase) ==> v[j].expiresAt == v[i].expiresAt
    decreases j - i
  {
    if i < j {
      HeldOnward(v, i, j - 1);
      assert LifeStep(v[j - 1], v[j]);
    }
  }

  function PhaseChanges(v: seq<Reservation>): nat {
    if |v| <= 1 then 0
    else PhaseChanges(v[..|v| - 1]) + (if v[|v| - 1].phase != v[|v| - 2].phase then 1 else 0)
  }

  /** Every phase change raises the rank, so a reservation changes phase at most three times. */
  lemma {:induction false} AtMostThreeChanges(v: seq<Reservation>)
    requires Lifeline(v)
    ensures PhaseChanges(v) <= Rank(Last(v).phase) <= 3
  {
    var n := |v| - 1;
    if n > 0 {
      AtMostThreeChanges(v[..n]);
      assert LifeStep(v[n - 1], v[n]);
    }
  }
}
