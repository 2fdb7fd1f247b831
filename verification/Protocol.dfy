/**
 The broker as a state machine over API calls.

 Every object keeps its whole version history, so a stale read is a read of an
 older version and an optimistic write is one that names the current index.
 Workers are the concurrent actors; each holds a program counter and the
 snapshot it last read. Next is total: an event that is not enabled changes nothing.
 */
module Protocol {
  import opened Quantities
  import opened Availability
  import opened Decision

  // ----- stored objects -----

  datatype Advert = Advert(metrics: Metrics, hasCost: bool, timestamp: int, active: bool)

  /** The staleness test of one reconcile: its clock and the threshold it is configured with, zero for none. */
  datatype StaleTest = StaleTest(now: int, configured: int) {
    function Threshold(): int {
      if configured == 0 then DEFAULT_THRESHOLD else configured
    }
  }

  /** Who wrote a version of an advertisement. */
  datatype Origin =
    | Published
    | LockedBy(worker: nat, request: Amount)
    | FreedBy(worker: nat, request: Amount)
    | Recomputed
    | StatusSet(decided: StaleTest)

  datatype Version = Version(advert: Advert, origin: Origin)

  datatype Phase = Unset | Pending | Reserved | Active | Failed | Released

  datatype Reservation = Reservation(
    requester: ClusterId, target: ClusterId, request: Amount, duration: Option<int>, priority: int,
    phase: Phase, expiresAt: Option<int>, requesterActive: bool, requesterReleased: bool,
    finalizer: bool, deleting: bool, gone: bool)

  /**
   `owed` counts, in units of the request, what workers committed to the ledger for this
   reservation and have not yet written into its phase: locks minus releases.
   */
  datatype Record = Record(versions: seq<Reservation>, owed: int)

  // ----- workers -----

  datatype KeeperPc =
    | Idle
    | Finalizing
    | Targeting(choice: ClusterId)
    | LockReading
    | LockWriting(base: nat, copy: Advert)
    | Marking(phase: Phase)
    | FreeReading
    | FreeWriting(base: nat, copy: Advert)
    | Unfinalizing

  datatype PublisherPc =
    | PostReading(echo: Option<ResourceQuantities>)
    | PostWriting(base: nat, copy: Advert)
    | PostCreating(copy: Advert)
    | PostDone

  datatype RecalculatorPc =
    | RecalcWriting(base: nat, copy: Advert)
    | StatusWriting(base: nat, active: bool, decided: StaleTest)
    | RecalcDone

  /** A keeper is a reservation handler call or one run of the reservation reconciler. */
  datatype Worker =
    | Keeper(pc: KeeperPc, rid: nat, ver: nat, snap: Reservation, handler: bool,
             lockedAt: Option<nat>, answered: bool)
    | Publisher(post: PublisherPc, cluster: ClusterId, payload: Payload)
    | Recalculator(recalc: RecalculatorPc, cluster: ClusterId)

  /** What an agent measures and posts. */
  datatype Payload = Payload(
    allocatable: ResourceQuantities, inUse: ResourceQuantities, available: ResourceQuantities, timestamp: int)

  datatype State = State(clusters: map<ClusterId, seq<Version>>, reservations: seq<Record>, workers: seq<Worker>)

  const INIT := State(map[], [], [])

  /** Two minutes, when no threshold is configured. */
  const DEFAULT_THRESHOLD := 120

  // ----- pure pieces of the Go code -----

  predicate ValidSpec(r: Reservation) {
    r.requester != NO_ID && r.request.Positive()
  }

  predicate HeldPhase(p: Phase) {
    p == Reserved || p == Active
  }

  /** One unit of the request while the stored phase says the resources are held. */
  function HeldUnits(r: Reservation): int {
    if !r.gone && HeldPhase(r.phase) then 1 else 0
  }

  predicate Expired(r: Reservation, now: int) {
    r.expiresAt.Some? && now > r.expiresAt.value
  }

  function QueryOf(r: Reservation): Query {
    Query(r.requester, r.request, r.priority)
  }

  /** The switch on the phase, after validation, with the pending branch's target choice. */
  function Dispatch(r: Reservation, now: int, view: seq<Candidate>): KeeperPc {
    if !ValidSpec(r) then Marking(Failed)
    else match r.phase
      case Unset | Pending =>
        if r.target != NO_ID then LockReading
        else
          var choice := Choice(view, QueryOf(r));
          if choice.Some? && choice.value < |view| then Targeting(view[choice.value].id) else Marking(Failed)
      case Reserved =>
        if r.requesterActive then Marking(Active)
        else if Expired(r, now) then FreeReading
        else Idle
      case Active => if r.requesterReleased || Expired(r, now) then FreeReading else Idle
      case Failed | Released => Idle
  }

  /** First action of a reconcile on the version it read. */
  function FirstAction(r: Reservation, now: int, view: seq<Candidate>): KeeperPc {
    if r.gone then Idle
    else if r.deleting then
      if !r.finalizer then Idle
      else if HeldPhase(r.phase) then FreeReading
      else Unfinalizing
    else if !r.finalizer then Finalizing
    else Dispatch(r, now, view)
  }

  function AfterFree(r: Reservation): KeeperPc {
    if r.deleting then Unfinalizing else Marking(Released)
  }

  function WithPhase(r: Reservation, p: Phase, now: int): Reservation {
    if p == Reserved
    then r.(phase := Reserved, expiresAt := if r.duration.Some? then Some(now + r.duration.value) else r.expiresAt)
    else r.(phase := p)
  }

  /** The posted record: cost information is not carried, Reserved comes from the stored version or else the echo. */
  function Merge(p: Payload, echo: Option<ResourceQuantities>, existing: Option<Advert>): Advert {
    var reserved :=
      if existing.Some? && existing.value.metrics.reserved.Some? then existing.value.metrics.reserved else echo;
    Advert(Metrics(p.allocatable, p.inUse, reserved, p.available), false, p.timestamp,
           existing.Some? && existing.value.active)
  }

  function IsActive(timestamp: int, test: StaleTest): bool {
    !(test.now - timestamp > test.Threshold())
  }

  // ----- events -----

  datatype Event =
    | UserCreate(spec: Reservation)
    | UserSignal(rid: nat, requesterActive: bool, requesterReleased: bool)
    | UserDelete(rid: nat)
    | HandlerBegin(requester: ClusterId, request: Amount, duration: Option<int>, priority: int, view: seq<Candidate>)
    | ReconcileBegin(rid: nat, ver: nat, now: int, view: seq<Candidate>)
    | Finalize(w: nat, ok: bool, now: int, view: seq<Candidate>)
    | Retarget(w: nat)
    | LockRead(w: nat, base: Option<nat>)
    | LockCommit(w: nat)
    | LockGiveUp(w: nat)
    | Mark(w: nat, ok: bool, now: int)
    | FreeRead(w: nat, base: Option<nat>)
    | FreeCommit(w: nat)
    | Unfinalize(w: nat)
    | Abort(w: nat)
    | PublishBegin(cluster: ClusterId, payload: Payload, seen: Option<nat>)
    | PostRead(w: nat, base: Option<nat>)
    | PostCommit(w: nat)
    | RecalcBegin(cluster: ClusterId, ver: nat)
    | RecalcCommit(w: nat, ok: bool, test: StaleTest)
    | StatusCommit(w: nat)

  /** The worker an event belongs to; begin events create theirs. */
  function Actor(e: Event): Option<nat> {
    match e
    case Finalize(w, _, _, _) => Some(w)
    case Retarget(w) => Some(w)
    case LockRead(w, _) => Some(w)
    case LockCommit(w) => Some(w)
    case LockGiveUp(w) => Some(w)
    case Mark(w, _, _) => Some(w)
    case FreeRead(w, _) => Some(w)
    case FreeCommit(w) => Some(w)
    case Unfinalize(w) => Some(w)
    case Abort(w) => Some(w)
    case PostRead(w, _) => Some(w)
    case PostCommit(w) => Some(w)
    case RecalcCommit(w, _, _) => Some(w)
    case StatusCommit(w) => Some(w)
    case _ => None
  }

  // ----- primitive state changes -----

  function PutWorker(s: State, w: nat, wk: Worker): State
    requires w < |s.workers|
  {
    s.(workers := s.workers[w := wk])
  }

  function AddWorker(s: State, wk: Worker): State {
    s.(workers := s.workers + [wk])
  }

  function PutVersion(s: State, c: ClusterId, v: Version): State
    requires c in s.clusters
  {
    s.(clusters := s.clusters[c := s.clusters[c] + [v]])
  }

  /** Append a version to reservation rid and move `owed` by what the phase now accounts for. */
  function PutReservation(s: State, rid: nat, r: Reservation): State
    requires rid < |s.reservations| && |s.reservations[rid].versions| > 0
  {
    var rec := s.reservations[rid];
    var owed := rec.owed + HeldUnits(Last(rec.versions)) - HeldUnits(r);
    s.(reservations := s.reservations[rid := Record(rec.versions + [r], owed)])
  }

  function AddOwed(s: State, rid: nat, delta: int): State
    requires rid < |s.reservations|
  {
    var rec := s.reservations[rid];
    s.(reservations := s.reservations[rid := rec.(owed := rec.owed + delta)])
  }

  predicate KeeperAt(s: State, w: nat) {
    && w < |s.workers|
    && s.workers[w].Keeper?
    && s.workers[w].rid < |s.reservations|
    && |s.reservations[s.workers[w].rid].versions| > 0
  }

  predicate Exists(s: State, c: ClusterId) {
    c in s.clusters && |s.clusters[c]| > 0
  }

  /** An API write succeeds only on the current version of the reservation. */
  predicate Current(s: State, wk: Worker)
    requires wk.Keeper?
  {
    && wk.rid < |s.reservations|
    && wk.ver + 1 == |s.reservations[wk.rid].versions|
  }

  function SetPc(s: State, w: nat, pc: KeeperPc): State
    requires w < |s.workers| && s.workers[w].Keeper?
  {
    PutWorker(s, w, s.workers[w].(pc := pc))
  }

  /** A successful write of reservation content r by keeper w, which then holds that version. */
  function WriteReservation(s: State, w: nat, r: Reservation, pc: KeeperPc): State
    requires KeeperAt(s, w)
  {
    var wk := s.workers[w];
    PutWorker(PutReservation(s, wk.rid, r), w,
              wk.(pc := pc, ver := |s.reservations[wk.rid].versions|, snap := r))
  }

  // ----- transitions -----

  function Fresh(spec: Reservation): Reservation {
    spec.(phase := Unset, expiresAt := None, requesterActive := false, requesterReleased := false,
          finalizer := false, deleting := false, gone := false)
  }

  function DoUserSignal(s: State, rid: nat, active: bool, released: bool): State {
    if rid >= |s.reservations| || |s.reservations[rid].versions| == 0 || Last(s.reservations[rid].versions).gone then s
    else PutReservation(s, rid,
      Last(s.reservations[rid].versions).(requesterActive := active, requesterReleased := released))
  }

  /** Without a finalizer the object disappears at once; with one it is only marked. */
  function DoUserDelete(s: State, rid: nat): State {
    if rid >= |s.reservations| || |s.reservations[rid].versions| == 0 || Last(s.reservations[rid].versions).gone then s
    else
      var r := Last(s.reservations[rid].versions);
      PutReservation(s, rid, if r.finalizer then r.(deleting := true) else r.(gone := true))
  }

  function DoHandlerBegin(s: State, requester: ClusterId, request: Amount, duration: Option<int>, priority: int,
                          view: seq<Candidate>): State
  {
    var choice := Choice(view, Query(requester, request, priority));
    if requester == NO_ID || !request.Positive() || choice.None? || choice.value >= |view| then s
    else
      var r := Reservation(requester, view[choice.value].id, request, duration, priority,
                           Unset, None, false, false, false, false, false);
      AddWorker(s.(reservations := s.reservations + [Record([r], 0)]),
                Keeper(Finalizing, |s.reservations|, 0, r, true, None, false))
  }

  function DoReconcileBegin(s: State, rid: nat, ver: nat, now: int, view: seq<Candidate>): State {
    if rid >= |s.reservations| || ver >= |s.reservations[rid].versions| then s
    else
      var r := s.reservations[rid].versions[ver];
      var pc := FirstAction(r, now, view);
      if pc == Idle then s else AddWorker(s, Keeper(pc, rid, ver, r, false, None, false))
  }

  function DoFinalize(s: State, w: nat, ok: bool, now: int, view: seq<Candidate>): State {
    if !KeeperAt(s, w) || s.workers[w].pc != Finalizing then s
    else
      var wk := s.workers[w];
      if !ok || !Current(s, wk) then SetPc(s, w, if wk.handler then LockReading else Idle)
      else WriteReservation(s, w, wk.snap.(finalizer := true),
                            if wk.handler then LockReading else Dispatch(wk.snap, now, view))
  }

  function DoRetarget(s: State, w: nat): State {
    if !KeeperAt(s, w) || !s.workers[w].pc.Targeting? then s
    else
      var wk := s.workers[w];
      if !Current(s, wk) then SetPc(s, w, Idle)
      else WriteReservation(s, w, wk.snap.(target := wk.pc.choice), LockReading)
  }

  /** Read, check and add on a private copy. A missing target or too little room ends in Failed. */
  function DoLockRead(s: State, w: nat, base: Option<nat>): State {
    if !KeeperAt(s, w) || s.workers[w].pc != LockReading then s
    else
      var wk := s.workers[w];
      var c := wk.snap.target;
      if base.None? then SetPc(s, w, Marking(Failed))
      else if c !in s.clusters || base.value >= |s.clusters[c]| then s
      else
        var adv := s.clusters[c][base.value].advert;
        if !CanReserve(adv.metrics, wk.snap.request) then SetPc(s, w, Marking(Failed))
        else if !GpuComplete(adv.metrics) then SetPc(s, w, Idle)
        else SetPc(s, w, LockWriting(base.value, adv.(metrics := Locked(adv.metrics, wk.snap.request))))
  }

  /** Write the copy if its version is still current, otherwise go round the retry loop again. */
  function DoLockCommit(s: State, w: nat): State {
    if !KeeperAt(s, w) || !s.workers[w].pc.LockWriting? || !Exists(s, s.workers[w].snap.target) then s
    else
      var wk := s.workers[w];
      var c := wk.snap.target;
      if wk.pc.base + 1 != |s.clusters[c]| then SetPc(s, w, LockReading)
      else
        var s1 := PutVersion(s, c, Version(wk.pc.copy, LockedBy(w, wk.snap.request)));
        PutWorker(AddOwed(s1, wk.rid, 1), w,
                  wk.(pc := Marking(Reserved), lockedAt := Some(|s.clusters[c]|)))
  }

  /** Retry budget exhausted or another error: the handler records Failed, the reconciler returns the error. */
  function DoLockGiveUp(s: State, w: nat): State {
    if !KeeperAt(s, w) || !(s.workers[w].pc.LockReading? || s.workers[w].pc.LockWriting?) then s
    else SetPc(s, w, if s.workers[w].handler then Marking(Failed) else Idle)
  }

  /** The status write. The handler ignores its failure and answers all the same. */
  function DoMark(s: State, w: nat, ok: bool, now: int): State {
    if !KeeperAt(s, w) || !s.workers[w].pc.Marking? then s
    else
      var wk := s.workers[w];
      var p := wk.pc.phase;
      var s1 := if ok && Current(s, wk) then WriteReservation(s, w, WithPhase(wk.snap, p, now), Idle)
                else SetPc(s, w, Idle);
      PutWorker(s1, w, s1.workers[w].(answered := wk.handler && p == Reserved))
  }

  /** List, find the target and subtract on a private copy; a target missing from the list skips the release. */
  function DoFreeRead(s: State, w: nat, base: Option<nat>): State {
    if !KeeperAt(s, w) || s.workers[w].pc != FreeReading then s
    else
      var wk := s.workers[w];
      var c := wk.snap.target;
      if base.None? then SetPc(s, w, AfterFree(wk.snap))
      else if c !in s.clusters || base.value >= |s.clusters[c]| then s
      else
        var adv := s.clusters[c][base.value].advert;
        if adv.metrics.reserved.None? || !GpuComplete(adv.metrics) then SetPc(s, w, Idle)
        else SetPc(s, w, FreeWriting(base.value, adv.(metrics := Freed(adv.metrics, wk.snap.request))))
  }

  /** A conflict here is not retried: the reconcile returns the error. */
  function DoFreeCommit(s: State, w: nat): State {
    if !KeeperAt(s, w) || !s.workers[w].pc.FreeWriting? || !Exists(s, s.workers[w].snap.target) then s
    else
      var wk := s.workers[w];
      var c := wk.snap.target;
      if wk.pc.base + 1 != |s.clusters[c]| then SetPc(s, w, Idle)
      else
        var s1 := PutVersion(s, c, Version(wk.pc.copy, FreedBy(w, wk.snap.request)));
        SetPc(AddOwed(s1, wk.rid, -1), w, AfterFree(wk.snap))
  }

  /** Removing the last finalizer of a deleted object removes the object. */
  function DoUnfinalize(s: State, w: nat): State {
    if !KeeperAt(s, w) || s.workers[w].pc != Unfinalizing then s
    else
      var wk := s.workers[w];
      if !Current(s, wk) then SetPc(s, w, Idle)
      else WriteReservation(s, w, wk.snap.(finalizer := false, gone := true), Idle)
  }

  /** A crash or a transport error at any point. */
  function DoAbort(s: State, w: nat): State {
    if w >= |s.workers| then s
    else match s.workers[w]
      case Keeper(_, _, _, _, _, _, _) => SetPc(s, w, Idle)
      case Publisher(_, _, _) => PutWorker(s, w, s.workers[w].(post := PostDone))
      case Recalculator(_, _) => PutWorker(s, w, s.workers[w].(recalc := RecalcDone))
  }

  /** The agent's own GET, whose Reserved it will echo; None is a failed or empty answer. */
  function DoPublishBegin(s: State, c: ClusterId, payload: Payload, seen: Option<nat>): State {
    if c == NO_ID then s
    else if seen.None? then AddWorker(s, Publisher(PostReading(None), c, payload))
    else if c !in s.clusters || seen.value >= |s.clusters[c]| then s
    else AddWorker(s, Publisher(PostReading(s.clusters[c][seen.value].advert.metrics.reserved), c, payload))
  }

  function DoPostRead(s: State, w: nat, base: Option<nat>): State {
    if w >= |s.workers| || !s.workers[w].Publisher? || !s.workers[w].post.PostReading? then s
    else
      var wk := s.workers[w];
      if base.None? then
        PutWorker(s, w, wk.(post := PostCreating(Merge(wk.payload, wk.post.echo, None))))
      else if wk.cluster !in s.clusters || base.value >= |s.clusters[wk.cluster]| then s
      else
        var existing := s.clusters[wk.cluster][base.value].advert;
        PutWorker(s, w, wk.(post := PostWriting(base.value, Merge(wk.payload, wk.post.echo, Some(existing)))))
  }

  /** The status sub-resource is not touched by a spec update, so Active is that of the stored version. */
  function DoPostCommit(s: State, w: nat): State {
    if w >= |s.workers| || !s.workers[w].Publisher? then s
    else
      var wk := s.workers[w];
      var done := PutWorker(s, w, wk.(post := PostDone));
      match wk.post
      case PostWriting(base, copy) =>
        if Exists(s, wk.cluster) && base + 1 == |s.clusters[wk.cluster]|
        then PutVersion(done, wk.cluster, Version(copy, Published)) else done
      case PostCreating(copy) =>
        if wk.cluster in s.clusters then done
        else done.(clusters := s.clusters[wk.cluster := [Version(copy, Published)]])
      case _ => s
  }

  function DoRecalcBegin(s: State, c: ClusterId, base: nat): State {
    if c !in s.clusters || base >= |s.clusters[c]| || !GpuComplete(s.clusters[c][base].advert.metrics) then s
    else
      var adv := s.clusters[c][base].advert;
      AddWorker(s, Recalculator(RecalcWriting(base, adv.(metrics := Recalculated(adv.metrics))), c))
  }

  /** A failed spec write is logged and the status write still follows, with the version it has. */
  function DoRecalcCommit(s: State, w: nat, ok: bool, test: StaleTest): State {
    if w >= |s.workers| || !s.workers[w].Recalculator? || !s.workers[w].recalc.RecalcWriting?
       || !Exists(s, s.workers[w].cluster) then s
    else
      var wk := s.workers[w];
      var h := s.clusters[wk.cluster];
      var active := IsActive(wk.recalc.copy.timestamp, test);
      if ok && wk.recalc.base + 1 == |h| then
        PutWorker(PutVersion(s, wk.cluster, Version(wk.recalc.copy, Recomputed)), w,
                  wk.(recalc := StatusWriting(|h|, active, test)))
      else PutWorker(s, w, wk.(recalc := StatusWriting(wk.recalc.base, active, test)))
  }

  function DoStatusCommit(s: State, w: nat): State {
    if w >= |s.workers| || !s.workers[w].Recalculator? || !s.workers[w].recalc.StatusWriting?
       || !Exists(s, s.workers[w].cluster) then s
    else
      var wk := s.workers[w];
      var h := s.clusters[wk.cluster];
      if wk.recalc.base + 1 == |h| then
        var marked := Version(Last(h).advert.(active := wk.recalc.active), StatusSet(wk.recalc.decided));
        PutWorker(PutVersion(s, wk.cluster, marked), w,
                  wk.(recalc := StatusWriting(|h|, wk.recalc.active, wk.recalc.decided)))
      else PutWorker(s, w, wk.(recalc := RecalcDone))
  }

  function Next(s: State, e: Event): State {
    match e
    case UserCreate(spec) => s.(reservations := s.reservations + [Record([Fresh(spec)], 0)])
    case UserSignal(rid, active, released) => DoUserSignal(s, rid, active, released)
    case UserDelete(rid) => DoUserDelete(s, rid)
    case HandlerBegin(requester, request, duration, priority, view) =>
      DoHandlerBegin(s, requester, request, duration, priority, view)
    case ReconcileBegin(rid, ver, now, view) => DoReconcileBegin(s, rid, ver, now, view)
    case Finalize(w, ok, now, view) => DoFinalize(s, w, ok, now, view)
    case Retarget(w) => DoRetarget(s, w)
    case LockRead(w, base) => DoLockRead(s, w, base)
    case LockCommit(w) => DoLockCommit(s, w)
    case LockGiveUp(w) => DoLockGiveUp(s, w)
    case Mark(w, ok, now) => DoMark(s, w, ok, now)
    case FreeRead(w, base) => DoFreeRead(s, w, base)
    case FreeCommit(w) => DoFreeCommit(s, w)
    case Unfinalize(w) => DoUnfinalize(s, w)
    case Abort(w) => DoAbort(s, w)
    case PublishBegin(c, payload, seen) => DoPublishBegin(s, c, payload, seen)
    case PostRead(w, base) => DoPostRead(s, w, base)
    case PostCommit(w) => DoPostCommit(s, w)
    case RecalcBegin(c, base) => DoRecalcBegin(s, c, base)
    case RecalcCommit(w, ok, test) => DoRecalcCommit(s, w, ok, test)
    case StatusCommit(w) => DoStatusCommit(s, w)
  }

  function Exec(s: State, events: seq<Event>): State {
    if |events| == 0 then s else Next(Exec(s, events[..|events| - 1]), Last(events))
  }

  lemma ExecSnoc(s: State, events: seq<Event>, e: Event)
    ensures Exec(s, events + [e]) == Next(Exec(s, events), e)
  {
    assert (events + [e])[..|events|] == events;
  }

  lemma {:induction false} ExecConcat(s: State, first: seq<Event>, second: seq<Event>)
    ensures Exec(s, first + second) == Exec(Exec(s, first), second)
  {
    if |second| == 0 {
      assert first + second == first;
    } else {
      var n := |second| - 1;
      ExecConcat(s, first, second[..n]);
      assert (first + second)[..|first| + n] == first + second[..n];
    }
  }

  /** An event changes no worker but its own. */
  lemma OthersKeepWorker(s: State, e: Event, w: nat)
    requires w < |s.workers| && Actor(e) != Some(w)
    ensures w < |Next(s, e).workers| && Next(s, e).workers[w] == s.workers[w]
  {
    if Actor(e).None? {
      BeginKeepsWorkers(s, e, w);
    } else {
      ActorKeepsOthers(s, e, w);
    }
  }

  lemma BeginKeepsWorkers(s: State, e: Event, w: nat)
    requires w < |s.workers| && Actor(e).None?
    ensures w < |Next(s, e).workers| && Next(s, e).workers[w] == s.workers[w]
  {
  }

  lemma ActorKeepsOthers(s: State, e: Event, w: nat)
    requires w < |s.workers| && Actor(e).Some? && Actor(e).value != w
    ensures w < |Next(s, e).workers| && Next(s, e).workers[w] == s.workers[w]
  {
  }

  // ----- runs as relations: quantified, so that a proof unfolds a step only where it names one -----

  /** Event e takes s to s'. */
  ghost predicate Did(s: State, e: Event, s': State) {
    forall x {:trigger Next(s, x)} :: x == e ==> Next(s, x) == s'
  }

  ghost predicate Ran(s: State, events: seq<Event>, s': State) {
    forall t {:trigger Exec(s, t)} :: t == events ==> Exec(s, t) == s'
  }

  /** Some events take s to s'. */
  ghost predicate Leads(s: State, s': State) {
    exists events: seq<Event> :: Ran(s, events, s')
  }

  ghost predicate Reachable(s: State) {
    Leads(INIT, s)
  }

  lemma RanLeads(a: State, b: State, events: seq<Event>, c: State)
    requires Leads(a, b) && Ran(b, events, c)
    ensures Leads(a, c)
  {
    var before: seq<Event> :| Ran(a, before, b);
    assert Exec(a, before) == b && Exec(b, events) == c;
    ExecConcat(a, before, events);
    assert Ran(a, before + events, c);
  }

  lemma LeadsOn(a: State, b: State, c: State)
    requires Leads(a, b) && Leads(b, c)
    ensures Leads(a, c)
  {
    var after: seq<Event> :| Ran(b, after, c);
    RanLeads(a, b, after, c);
  }

  lemma Stays(s: State)
    ensures Leads(s, s)
  {
    assert Exec(s, []) == s;
    assert Ran(s, [], s);
  }

  lemma DidLeads(a: State, b: State, e: Event, c: State)
    requires Leads(a, b) && Did(b, e, c)
    ensures Leads(a, c)
  {
    assert Next(b, e) == c;
    ExecSnoc(b, [], e);
    assert Ran(b, [] + [e], c);
    RanLeads(a, b, [] + [e], c);
  }

  // ----- runs in which worker w does its work -----

  /** Not a crash, not a failing write; giving up a lock only where patience may end. */
  predicate Willing(e: Event, patient: bool) {
    match e
    case Abort(_) => false
    case Finalize(_, ok, _, _) => ok
    case Mark(_, ok, _) => ok
    case RecalcCommit(_, ok, _) => ok
    case LockGiveUp(_) => !patient
    case _ => true
  }

  predicate Diligent(events: seq<Event>, w: nat, patient: bool) {
    forall i :: 0 <= i < |events| && Actor(events[i]) == Some(w) ==> Willing(events[i], patient)
  }

  /** Some events take s to s', and worker w's own events among them are its work; others may do anything. */
  ghost predicate Works(w: nat, patient: bool, s: State, s': State) {
    exists events: seq<Event> :: Ran(s, events, s') && Diligent(events, w, patient)
  }

  lemma WorksLeads(w: nat, patient: bool, a: State, b: State)
    requires Works(w, patient, a, b)
    ensures Leads(a, b)
  {
    var events: seq<Event> :| Ran(a, events, b) && Diligent(events, w, patient);
  }

  lemma WorksStays(w: nat, patient: bool, s: State)
    ensures Works(w, patient, s, s)
  {
    assert Exec(s, []) == s;
    assert Ran(s, [], s) && Diligent([], w, patient);
  }

  lemma RanWorks(w: nat, patient: bool, a: State, b: State, events: seq<Event>, c: State)
    requires Works(w, patient, a, b) && Ran(b, events, c) && Diligent(events, w, patient)
    ensures Works(w, patient, a, c)
  {
    var before: seq<Event> :| Ran(a, before, b) && Diligent(before, w, patient);
    assert Exec(a, before) == b && Exec(b, events) == c;
    ExecConcat(a, before, events);
    assert Ran(a, before + events, c) && Diligent(before + events, w, patient);
  }

  lemma DidWorks(w: nat, patient: bool, a: State, b: State, e: Event, c: State)
    requires Works(w, patient, a, b) && Did(b, e, c) && (Actor(e) == Some(w) ==> Willing(e, patient))
    ensures Works(w, patient, a, c)
  {
    assert Next(b, e) == c;
    ExecSnoc(b, [], e);
    assert Ran(b, [] + [e], c) && Diligent([] + [e], w, patient);
    RanWorks(w, patient, a, b, [] + [e], c);
  }
}
