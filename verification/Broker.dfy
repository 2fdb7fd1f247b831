/**
 The broker's handlers and reconcilers as code: they mutate records in place, retry and
 write. Other workers run between any two API calls. Each method is proved to be a run of
 the protocol, so every theorem about runs holds of it.
 */
module Broker {
  import opened Quantities
  import opened Availability
  import opened Decision
  import opened Protocol
  import opened History
  import opened Invariant
  import opened Safety
  import opened Reasons

  /** One turn of a retry loop: what others do first, what the cache answers, what others do before the write. */
  datatype Attempt = Attempt(before: seq<Event>, miss: bool, behind: nat, between: seq<Event>)

  /**
   What others do in the gaps of one reconcile: before its first write, before the target write,
   before the list of a release, between that list and the release's write, before the closing write.
   */
  datatype Gaps = Gaps(early: seq<Event>, beforeTarget: seq<Event>, beforeList: seq<Event>,
                       middle: seq<Event>, late: seq<Event>)
  {
    /** None of it is done by worker w itself. */
    predicate NotOf(w: nat) {
      NotBy(early, w) && NotBy(beforeTarget, w) && NotBy(beforeList, w) && NotBy(middle, w) && NotBy(late, w)
    }

    predicate Empty() {
      early == [] && beforeTarget == [] && beforeList == [] && middle == [] && late == []
    }
  }

  datatype Outcome = Granted | NotFound | Insufficient | Panicked | Exhausted

  predicate NotBy(events: seq<Event>, w: nat) {
    forall i :: 0 <= i < |events| ==> Actor(events[i]) != Some(w)
  }

  lemma {:induction false} OthersKeepWorkerAll(s: State, events: seq<Event>, w: nat)
    requires w < |s.workers| && NotBy(events, w)
    ensures w < |Exec(s, events).workers| && Exec(s, events).workers[w] == s.workers[w]
  {
    if |events| > 0 {
      var before := events[..|events| - 1];
      OthersKeepWorkerAll(s, before, w);
      OthersKeepWorker(Exec(s, before), Last(events), w);
    }
  }

  /** What others do leaves worker w where it is. */
  lemma RanKeepsWorker(s: State, events: seq<Event>, s': State, w: nat)
    requires Reachable(s) && Ran(s, events, s') && w < |s.workers| && NotBy(events, w)
    ensures Works(w, true, s, s') && Leads(s, s') && Reachable(s')
    ensures w < |s'.workers| && s'.workers[w] == s.workers[w]
  {
    assert Exec(s, events) == s';
    OthersKeepWorkerAll(s, events, w);
    RanLeads(INIT, s, events, s');
    WorksStays(w, true, s);
    RanWorks(w, true, s, s, events, s');
    WorksLeads(w, true, s, s');
  }

  lemma Onward(w: nat, patient: bool, a: State, b: State, c: State)
    requires Reachable(a) && Works(w, patient, a, b) && (Works(w, patient, b, c) || Works(w, true, b, c))
    ensures Works(w, patient, a, c) && Leads(a, c) && Reachable(c)
  {
    var events: seq<Event> :| Ran(b, events, c) && (Diligent(events, w, patient) || Diligent(events, w, true));
    if Diligent(events, w, true) {
      assert forall e :: Willing(e, true) ==> Willing(e, patient);
    }
    RanWorks(w, patient, a, b, events, c);
    WorksLeads(w, patient, a, c);
    LeadsOn(INIT, a, c);
  }

  lemma Stepped(w: nat, patient: bool, a: State, b: State, e: Event, c: State)
    requires Reachable(a) && Works(w, patient, a, b) && Did(b, e, c)
    requires Actor(e) == Some(w) ==> Willing(e, patient)
    ensures Works(w, patient, a, c) && Leads(a, c) && Reachable(c)
  {
    DidWorks(w, patient, a, b, e, c);
    WorksLeads(w, patient, a, c);
    LeadsOn(INIT, a, c);
  }

  /** The index the cache answers with when it is `behind` versions old. */
  function Cached(h: seq<Version>, behind: nat): nat
    requires |h| > 0
  {
    if behind < |h| then |h| - 1 - behind else 0
  }

  /** Nobody writes between this turn's read and its write, and the read is of the current version. */
  predicate Undisturbed(turn: Attempt) {
    turn.behind == 0 && turn.between == []
  }

  /** Nobody does anything before or during the first turn, and it finds its record. */
  predicate FreeFirst(turns: seq<Attempt>) {
    |turns| > 0 && turns[0].before == [] && Undisturbed(turns[0]) && !turns[0].miss
  }

  predicate Patient(turns: seq<Attempt>) {
    exists i :: 0 <= i < |turns| && Undisturbed(turns[i])
  }

  class Broker {
    var clusters: map<ClusterId, seq<Version>>
    var reservations: seq<Record>
    var workers: seq<Worker>

    constructor ()
      ensures View() == INIT
    {
      clusters, reservations, workers := map[], [], [];
    }

    function View(): State
      reads this
    {
      State(clusters, reservations, workers)
    }

    /** The environment: other workers' events, in the given order. */
    method Interfere(events: seq<Event>)
      modifies this
      ensures Ran(old(View()), events, View())
    {
      for i := 0 to |events|
        invariant View() == Exec(old(View()), events[..i])
      {
        ExecSnoc(old(View()), events[..i], events[i]);
        assert events[..i + 1] == events[..i] + [events[i]];
        var s := Next(View(), events[i]);
        clusters, reservations, workers := s.clusters, s.reservations, s.workers;
      }
      assert events[..|events|] == events;
    }

    method SetKeeper(w: nat, pc: KeeperPc)
      requires w < |workers| && workers[w].Keeper?
      modifies this`workers
      ensures View() == SetPc(old(View()), w, pc)
    {
      workers := workers[w := workers[w].(pc := pc)];
    }

    /** Read, check, add in place on a private copy. Granted here means the copy is ready to be written. */
    method ReadForLock(w: nat, miss: bool, behind: nat) returns (outcome: Outcome, ghost e: Event)
      requires KeeperAt(View(), w) && workers[w].pc == LockReading
      requires workers[w].snap.target in clusters ==> |clusters[workers[w].snap.target]| > 0
      modifies this`workers
      ensures e.LockRead? && e.w == w && Did(old(View()), e, View())
      ensures w < |workers| && workers[w].Keeper? && workers[w] == old(workers[w]).(pc := workers[w].pc)
      ensures outcome == Granted <==> workers[w].pc.LockWriting?
      ensures outcome == Panicked <==> workers[w].pc == Idle
      ensures outcome == NotFound || outcome == Insufficient <==> workers[w].pc == Marking(Failed)
      ensures outcome == NotFound <==> miss || workers[w].snap.target !in clusters
      ensures e.base.None? <==> outcome == NotFound
      ensures e.base.Some? ==> e.base.value == Cached(clusters[workers[w].snap.target], behind)
      ensures outcome == Granted ==> workers[w].pc.base == e.base.value
      ensures e.base.Some? ==>
        var m := clusters[workers[w].snap.target][e.base.value].advert.metrics;
        outcome == if !CanReserve(m, workers[w].snap.request) then Insufficient
                   else if !GpuComplete(m) then Panicked else Granted
      ensures outcome != Exhausted
    {
      var request, target := workers[w].snap.request, workers[w].snap.target;
      if miss || target !in clusters {
        SetKeeper(w, Marking(Failed));
        return NotFound, LockRead(w, None);
      }
      var read := Cached(clusters[target], behind);
      e := LockRead(w, Some(read));
      var advert := clusters[target][read].advert;
      var metrics := new ResourceMetrics(advert.metrics);
      if !CanReserve(metrics.View(), request) {
        SetKeeper(w, Marking(Failed));
        outcome := Insufficient;
      } else if !GpuComplete(metrics.View()) {
        SetKeeper(w, Idle);
        outcome := Panicked;
      } else {
        metrics.AddReservation(request);
        SetKeeper(w, LockWriting(read, advert.(metrics := metrics.View())));
        outcome := Granted;
      }
    }

    /** The optimistic write of the locked copy. */
    method WriteLock(w: nat) returns (ok: bool)
      requires KeeperAt(View(), w) && workers[w].pc.LockWriting? && Exists(View(), workers[w].snap.target)
      modifies this
      ensures Did(old(View()), LockCommit(w), View())
      ensures KeeperAt(View(), w) && SameCopy(old(workers[w]), workers[w])
      ensures ok ==>
        && workers[w].pc == Marking(Reserved) && Exists(View(), workers[w].snap.target)
        && Last(clusters[workers[w].snap.target]).origin == LockedBy(w, workers[w].snap.request)
      ensures !ok ==> workers[w].pc == LockReading && clusters == old(clusters)
      ensures ok <==> old(workers[w].pc.base + 1 == |clusters[workers[w].snap.target]|)
      ensures SameVersions(old(reservations), reservations)
    {
      var wk := workers[w];
      var target := wk.snap.target;
      ok := wk.pc.base + 1 == |clusters[target]|;
      if ok {
        var rec := reservations[wk.rid];
        workers := workers[w := wk.(pc := Marking(Reserved), lockedAt := Some(|clusters[target]|))];
        clusters := clusters[target := clusters[target] + [Version(wk.pc.copy, LockedBy(w, wk.snap.request))]];
        reservations := reservations[wk.rid := rec.(owed := rec.owed + 1)];
      } else {
        SetKeeper(w, LockReading);
      }
    }

    /** Let others run, keeping this keeper where it is. */
    method Yield(w: nat, events: seq<Event>)
      requires Reachable(View()) && w < |workers| && workers[w].Keeper? && NotBy(events, w)
      modifies this
      ensures Ran(old(View()), events, View()) && Works(w, true, old(View()), View()) && Reachable(View())
      ensures KeeperAt(View(), w) && workers[w] == old(workers[w])
      ensures events == [] ==> View() == old(View())
    {
      ghost var s0 := View();
      Interfere(events);
      RanKeepsWorker(s0, events, View(), w);
      KeeperInPlace(View(), w);
      if events == [] {
        assert Exec(s0, events) == View();
      }
    }

    /** One turn of the loop. Exhausted here means a conflict, and that the keeper may try again. */
    method TryLock(w: nat, turn: Attempt) returns (outcome: Outcome)
      requires Reachable(View()) && KeeperAt(View(), w) && workers[w].pc == LockReading
      requires NotBy(turn.before, w) && NotBy(turn.between, w)
      modifies this
      ensures Works(w, true, old(View()), View()) && Reachable(View())
      ensures KeeperAt(View(), w) && LockOutcome(View(), w, outcome) && SameCopy(old(workers[w]), workers[w])
      ensures Undisturbed(turn) ==> outcome != Exhausted
      ensures turn.before == [] && Undisturbed(turn) && !turn.miss ==>
        && (outcome == Granted <==> old(Lockable(clusters, workers[w].snap)))
        && (outcome == Panicked ==> !old(Decidable(clusters, workers[w].snap)))
        && SameVersions(old(reservations), reservations)
    {
      ghost var s0 := View();
      Yield(w, turn.before);
      ghost var s1 := View();
      KeeperInPlace(s1, w);
      ghost var e;
      outcome, e := ReadForLock(w, turn.miss, turn.behind);
      Stepped(w, true, s0, s1, e, View());
      KeeperInPlace(View(), w);
      if outcome == Granted {
        ghost var s2 := View();
        outcome := CommitTurn(w, turn.between);
        Onward(w, true, s0, s2, View());
      }
    }

    /** The second half of a turn: others, then the write. */
    method CommitTurn(w: nat, between: seq<Event>) returns (outcome: Outcome)
      requires Reachable(View()) && KeeperAt(View(), w) && workers[w].pc.LockWriting? && NotBy(between, w)
      modifies this
      ensures Works(w, true, old(View()), View()) && Reachable(View())
      ensures KeeperAt(View(), w) && LockOutcome(View(), w, outcome) && SameCopy(old(workers[w]), workers[w])
      ensures outcome == Granted || outcome == Exhausted
      ensures between == [] ==>
        && SameVersions(old(reservations), reservations)
        && old(workers[w].snap.target in clusters)
        && (outcome == Granted <==> old(workers[w].pc.base + 1 == |clusters[workers[w].snap.target]|))
    {
      ghost var s0 := View();
      Yield(w, between);
      ghost var s1 := View();
      KeeperInPlace(s1, w);
      var ok := WriteLock(w);
      Stepped(w, true, s0, s1, LockCommit(w), View());
      if ok {
        LockPutOn(View(), workers[w].snap.target);
      }
      outcome := if ok then Granted else Exhausted;
    }

    /**
     RetryOnConflict around read, check, add and write. The turns say what other workers do
     meanwhile. However many conflicts are met, Granted means this keeper's one lock is the
     newest version of its target.
     */
    method LockWithRetry(w: nat, turns: seq<Attempt>) returns (outcome: Outcome)
      requires Reachable(View()) && KeeperAt(View(), w) && workers[w].pc == LockReading
      requires forall i :: 0 <= i < |turns| ==> NotBy(turns[i].before, w) && NotBy(turns[i].between, w)
      modifies this
      ensures Works(w, Patient(turns), old(View()), View()) && Reachable(View())
      ensures KeeperAt(View(), w) && SameCopy(old(workers[w]), workers[w])
      ensures outcome != Exhausted ==> LockOutcome(View(), w, outcome)
      ensures outcome == Exhausted ==> workers[w].pc == if workers[w].handler then Marking(Failed) else Idle
      ensures Patient(turns) ==> outcome != Exhausted
      ensures FreeFirst(turns) ==>
        && (outcome == Granted <==> old(Lockable(clusters, workers[w].snap)))
        && (outcome == Panicked ==> !old(Decidable(clusters, workers[w].snap)))
        && SameVersions(old(reservations), reservations)
    {
      ghost var s0 := View();
      WorksStays(w, Patient(turns), s0);
      for i := 0 to |turns|
        invariant Works(w, Patient(turns), s0, View()) && Reachable(View())
        invariant KeeperAt(View(), w) && workers[w].pc == LockReading && SameCopy(s0.workers[w], workers[w])
        invariant forall j :: 0 <= j < i ==> !Undisturbed(turns[j])
        invariant i == 0 ==> View() == s0
      {
        ghost var s1 := View();
        outcome := TryLock(w, turns[i]);
        Onward(w, Patient(turns), s0, s1, View());
        if outcome != Exhausted {
          return;
        }
      }
      ghost var s2 := View();
      GiveUp(w);
      Stepped(w, Patient(turns), s0, s2, LockGiveUp(w), View());
      outcome := Exhausted;
    }

    method GiveUp(w: nat)
      requires KeeperAt(View(), w) && workers[w].pc == LockReading
      modifies this`workers
      ensures Did(old(View()), LockGiveUp(w), View())
      ensures KeeperAt(View(), w) && SameCopy(old(workers[w]), workers[w])
      ensures workers[w].pc == if workers[w].handler then Marking(Failed) else Idle
    {
      SetKeeper(w, if workers[w].handler then Marking(Failed) else Idle);
    }

    // ----- release -----

    /** List the advertisements, take the first of the target, subtract in place on a private copy. */
    method ReadForRelease(w: nat, listing: seq<Listed>) returns (ghost e: Event)
      requires KeeperAt(View(), w) && workers[w].pc == FreeReading && FromStore(listing, clusters)
      modifies this`workers
      ensures e.FreeRead? && e.w == w && Did(old(View()), e, View())
      ensures w < |workers| && workers[w].Keeper? && workers[w] == old(workers[w]).(pc := workers[w].pc)
      ensures e.base.None? <==> forall l :: l in listing ==> l.id != workers[w].snap.target
      ensures e.base.Some? ==> Listed(workers[w].snap.target, e.base.value) in listing
      ensures e.base.Some? ==>
        var m := clusters[workers[w].snap.target][e.base.value].advert.metrics;
        workers[w].pc.FreeWriting? <==> m.reserved.Some? && GpuComplete(m)
      ensures workers[w].pc.FreeWriting? ==> e.base == Some(workers[w].pc.base)
      ensures workers[w].pc.FreeWriting? || workers[w].pc == Idle
        || (workers[w].pc == AfterFree(workers[w].snap) && forall l :: l in listing ==> l.id != workers[w].snap.target)
    {
      var wk := workers[w];
      var found := FindCluster(listing, wk.snap.target);
      if found.None? {
        SetKeeper(w, AfterFree(wk.snap));
        return FreeRead(w, None);
      }
      var ver := listing[found.value].ver;
      e := FreeRead(w, Some(ver));
      var advert := clusters[wk.snap.target][ver].advert;
      var metrics := new ResourceMetrics(advert.metrics);
      if metrics.reserved.Some? && !GpuComplete(metrics.View()) {
        SetKeeper(w, Idle);
        return;
      }
      var ok := false;
      if metrics.reserved.Some? {
        ok := metrics.RemoveReservation(wk.snap.request);
      }
      SetKeeper(w, if ok then FreeWriting(ver, advert.(metrics := metrics.View())) else Idle);
    }

    method WriteRelease(w: nat) returns (ok: bool)
      requires KeeperAt(View(), w) && workers[w].pc.FreeWriting? && Exists(View(), workers[w].snap.target)
      modifies this
      ensures Did(old(View()), FreeCommit(w), View())
      ensures workers == old(workers)[w := old(workers)[w].(pc := if ok then AfterFree(old(workers)[w].snap) else Idle)]
      ensures ok ==> Exists(View(), workers[w].snap.target)
                     && Last(clusters[workers[w].snap.target]).origin == FreedBy(w, workers[w].snap.request)
      ensures !ok ==> clusters == old(clusters)
      ensures ok <==> old(workers[w].pc.base + 1 == |clusters[workers[w].snap.target]|)
      ensures SameVersions(old(reservations), reservations)
    {
      var wk := workers[w];
      var target := wk.snap.target;
      ok := wk.pc.base + 1 == |clusters[target]|;
      if ok {
        var rec := reservations[wk.rid];
        clusters := clusters[target := clusters[target] + [Version(wk.pc.copy, FreedBy(w, wk.snap.request))]];
        reservations := reservations[wk.rid := rec.(owed := rec.owed + -1)];
      }
      SetKeeper(w, if ok then AfterFree(wk.snap) else Idle);
    }

    /** Not retried: a conflict ends the reconcile. */
    method ReleaseResources(w: nat, listing: seq<Listed>, between: seq<Event>)
      requires Reachable(View()) && KeeperAt(View(), w) && workers[w].pc == FreeReading
      requires FromStore(listing, clusters) && NotBy(between, w)
      modifies this
      ensures Works(w, true, old(View()), View()) && Reachable(View()) && KeeperAt(View(), w)
      ensures SameCopy(old(workers[w]), workers[w])
      ensures between == [] && old(ReleaseReady(clusters, workers[w].snap.target, listing)) ==>
        workers[w].pc == AfterFree(workers[w].snap) && SameVersions(old(reservations), reservations)
      ensures workers[w].pc == AfterFree(workers[w].snap) || workers[w].pc == Idle
      ensures workers[w].pc != Idle && (exists l :: l in listing && l.id == workers[w].snap.target) ==>
        Exists(View(), workers[w].snap.target)
        && Last(clusters[workers[w].snap.target]).origin == FreedBy(w, workers[w].snap.request)
        && TookOff(clusters[workers[w].snap.target], workers[w].snap.request)
    {
      ghost var s0 := View();
      WorksStays(w, true, s0);
      ghost var e := ReadForRelease(w, listing);
      Stepped(w, true, s0, s0, e, View());
      KeeperInPlace(View(), w);
      if workers[w].pc.FreeWriting? {
        ghost var s1 := View();
        Yield(w, between);
        ghost var s2 := View();
        Onward(w, true, s0, s1, s2);
        KeeperInPlace(s2, w);
        var ok := WriteRelease(w);
        Stepped(w, true, s0, s2, FreeCommit(w), View());
        KeeperInPlace(View(), w);
        if ok {
          ReleaseTookOff(View(), workers[w].snap.target);
        }
      }
    }

    // ----- writes of the reservation itself -----

    /** Update of the object read earlier: succeeds only on the current version, and then refreshes the copy. */
    method UpdateReservation(w: nat, r: Reservation, pc: KeeperPc, otherwise: KeeperPc) returns (ok: bool)
      requires KeeperAt(View(), w)
      modifies this
      ensures ok <==> old(Current(View(), workers[w]))
      ensures View() == old(if Current(View(), workers[w]) then WriteReservation(View(), w, r, pc)
                            else SetPc(View(), w, otherwise))
    {
      var wk := workers[w];
      var rec := reservations[wk.rid];
      ok := wk.ver + 1 == |rec.versions|;
      if ok {
        var owed := rec.owed + HeldUnits(Last(rec.versions)) - HeldUnits(r);
        reservations := reservations[wk.rid := Record(rec.versions + [r], owed)];
        workers := workers[w := wk.(pc := pc, ver := |rec.versions|, snap := r)];
      } else {
        workers := workers[w := wk.(pc := otherwise)];
      }
    }

    /** The status write; the handler answers whether or not it succeeded. */
    method MarkStatus(w: nat, now: int) returns (ok: bool)
      requires KeeperAt(View(), w) && workers[w].pc.Marking?
      modifies this
      ensures Did(old(View()), Mark(w, true, now), View())
      ensures KeeperAt(View(), w) && workers[w].pc == Idle && (ok <==> old(Current(View(), workers[w])))
      ensures workers[w].rid == old(workers[w].rid)
      ensures workers[w].answered == old(workers[w].handler && workers[w].pc == Marking(Reserved))
      ensures ok ==> Last(reservations[workers[w].rid].versions)
                     == WithPhase(old(workers[w].snap), old(workers[w].pc.phase), now)
      ensures workers[w].snap.target == old(workers[w].snap.target)
    {
      var p := workers[w].pc.phase;
      var r := workers[w].snap;
      r := r.(phase := p);
      if p == Reserved && r.duration.Some? {
        r := r.(expiresAt := Some(now + r.duration.value));
      }
      ok := UpdateReservation(w, r, Idle, Idle);
      workers := workers[w := workers[w].(answered := workers[w].handler && p == Reserved)];
    }

    method AddFinalizer(w: nat, now: int, view: seq<Candidate>)
      requires KeeperAt(View(), w) && workers[w].pc == Finalizing
      modifies this
      ensures Did(old(View()), Finalize(w, true, now, view), View())
      ensures w < |workers| && workers[w].Keeper? && workers[w].handler == old(workers[w].handler)
      ensures workers[w].rid == old(workers[w].rid) && clusters == old(clusters)
      ensures workers[w].answered == old(workers[w].answered)
      ensures old(Current(View(), workers[w])) ==> Current(View(), workers[w])
      ensures workers[w].pc == (if workers[w].handler then LockReading
                                else if old(Current(View(), workers[w])) then Dispatch(old(workers[w].snap), now, view)
                                else Idle)
      ensures workers[w].snap == old(workers[w].snap).(finalizer := workers[w].snap.finalizer)
      ensures workers[w].pc != Idle && !workers[w].handler ==>
        workers[w].snap == old(workers[w].snap).(finalizer := true) && Current(View(), workers[w])
    {
      var wk := workers[w];
      var onward := LockReading;
      if !wk.handler {
        onward := Branch(wk.snap, now, view);
      }
      var ok := UpdateReservation(w, wk.snap.(finalizer := true), onward, if wk.handler then LockReading else Idle);
    }

    method WriteTarget(w: nat)
      requires KeeperAt(View(), w) && workers[w].pc.Targeting?
      modifies this
      ensures Did(old(View()), Retarget(w), View())
      ensures w < |workers| && workers[w].Keeper? && workers[w].handler == old(workers[w].handler)
      ensures workers[w].rid == old(workers[w].rid) && clusters == old(clusters)
      ensures workers[w].answered == old(workers[w].answered)
      ensures old(Current(View(), workers[w])) ==> Current(View(), workers[w])
      ensures workers[w].pc == if old(Current(View(), workers[w])) then LockReading else Idle
      ensures workers[w].pc != Idle ==>
        workers[w].snap == old(workers[w].snap).(target := old(workers[w].pc.choice)) && Current(View(), workers[w])
    {
      var wk := workers[w];
      var ok := UpdateReservation(w, wk.snap.(target := wk.pc.choice), LockReading, Idle);
    }

    method RemoveFinalizer(w: nat) returns (ok: bool)
      requires KeeperAt(View(), w) && workers[w].pc == Unfinalizing
      modifies this
      ensures Did(old(View()), Unfinalize(w), View())
      ensures w < |workers| && workers[w].Keeper? && workers[w].pc == Idle && (ok <==> old(Current(View(), workers[w])))
      ensures workers[w].rid == old(workers[w].rid)
      ensures ok ==>
        && KeeperAt(View(), w)
        && Last(reservations[workers[w].rid].versions) == old(workers[w].snap).(finalizer := false, gone := true)
    {
      var wk := workers[w];
      ok := UpdateReservation(w, wk.snap.(finalizer := false, gone := true), Idle, Idle);
    }

    // ----- the reservation handler -----

    /**
     PostReservation: select, create, add the finalizer, lock with retries, record the outcome, answer.
     Others run before the finalizer write (early), in the retry loop (turns) and before the status write (late).
     */
    method PostReservation(requester: ClusterId, request: Amount, duration: Option<int>, priority: int, now: int,
                           view: seq<Candidate>, early: seq<Event>, turns: seq<Attempt>, late: seq<Event>)
      returns (answer: Option<Reply>)
      requires Reachable(View()) && NotBy(early, |workers|) && NotBy(late, |workers|)
      requires forall i :: 0 <= i < |turns| ==> NotBy(turns[i].before, |workers|) && NotBy(turns[i].between, |workers|)
      modifies this
      ensures Works(old(|workers|), Patient(turns), old(View()), View()) && Reachable(View())
      ensures Refused(requester, request, priority, view) ==> answer.None? && View() == old(View())
      ensures !Refused(requester, request, priority, view) ==>
        && KeeperAt(View(), old(|workers|)) && workers[old(|workers|)].pc == Idle
        && workers[old(|workers|)].rid == old(|reservations|)
        && (answer.Some? <==> workers[old(|workers|)].answered)
      ensures !Refused(requester, request, priority, view) ==>
        && |reservations| > old(|reservations|) && |reservations[old(|reservations|)].versions| > 0
        && AsAsked(reservations[old(|reservations|)].versions[0], requester, request, duration, priority, view)
      ensures !Refused(requester, request, priority, view) && early == [] && FreeFirst(turns) && late == [] ==>
        (answer.Some? || old(!Roomy(clusters, requester, request, priority, view)
                             && !Uncounted(clusters, requester, request, priority, view)) ==>
           Recorded(Last(reservations[old(|reservations|)].versions), answer.Some?, duration, now))
      ensures !Refused(requester, request, priority, view) && early == [] && FreeFirst(turns) ==>
        (answer.Some? <==> old(Roomy(clusters, requester, request, priority, view)))
      ensures answer.Some? ==>
        && answer.value == ReplyOf(workers[old(|workers|)])
        && answer.value.request == request && answer.value.target != requester
        && Chosen(view, Query(requester, request, priority), answer.value.target)
        && ExactlyOneLock(View(), old(|workers|), answer.value.target, request)
    {
      ghost var s0 := View();
      WorksStays(|workers|, Patient(turns), s0);
      var w, rid := |workers|, |reservations|;
      if requester == NO_ID || !request.Positive() {
        return None;
      }
      var q := Query(requester, request, priority);
      var best := SelectBestCluster(view, q);
      ChoiceIsBest(view, q);
      if best.None? {
        return None;
      }
      Create(requester, request, duration, priority, view, best.value);
      Stepped(w, Patient(turns), s0, s0, HandlerBegin(requester, request, duration, priority, view), View());
      KeeperInPlace(View(), w);
      ghost var s1 := View();
      FinishHandler(w, now, early, turns, late);
      Onward(w, Patient(turns), s0, s1, View());
      LeadsKeepsVersions(s1, View(), rid);
      answer := AnswerOf(w);
    }

    method AnswerOf(w: nat) returns (answer: Option<Reply>)
      requires Reachable(View()) && KeeperAt(View(), w)
      ensures answer.Some? <==> workers[w].answered
      ensures answer.Some? ==>
        && answer.value == ReplyOf(workers[w]) && workers[w].snap.target != workers[w].snap.requester
        && ExactlyOneLock(View(), w, answer.value.target, answer.value.request)
    {
      if !workers[w].answered {
        return None;
      }
      AnsweredMeansOneLock(View(), w);
      answer := Some(ReplyOf(workers[w]));
    }

    /** The new object and the call's own place in it. */
    method Create(requester: ClusterId, request: Amount, duration: Option<int>, priority: int,
                  view: seq<Candidate>, best: nat)
      requires requester != NO_ID && request.Positive()
      requires best < |view| && Choice(view, Query(requester, request, priority)) == Some(best)
      modifies this
      ensures Did(old(View()), HandlerBegin(requester, request, duration, priority, view), View())
      ensures |workers| == old(|workers|) + 1 && clusters == old(clusters)
      ensures |reservations| == old(|reservations|) + 1 && |Last(reservations).versions| == 1
      ensures AsAsked(Last(reservations).versions[0], requester, request, duration, priority, view)
      ensures Last(workers).Keeper? && Last(workers).ver == 0 && Last(workers).snap == Last(reservations).versions[0]
      ensures var wk := Last(workers);
        && wk.Keeper? && wk.pc == Finalizing && wk.handler && !wk.answered && wk.rid == old(|reservations|)
        && wk.snap.requester == requester && wk.snap.request == request && wk.snap.target == view[best].id
    {
      var r := Reservation(requester, view[best].id, request, duration, priority,
                           Unset, None, false, false, false, false, false);
      workers := workers + [Keeper(Finalizing, |reservations|, 0, r, true, None, false)];
      reservations := reservations + [Record([r], 0)];
    }

    /** The handler after Create. A finalizer write that fails is only logged. */
    method FinishHandler(w: nat, now: int, early: seq<Event>, turns: seq<Attempt>, late: seq<Event>)
      requires Reachable(View()) && KeeperAt(View(), w) && workers[w].pc == Finalizing && workers[w].handler
      requires !workers[w].answered
      requires NotBy(early, w) && NotBy(late, w)
      requires forall i :: 0 <= i < |turns| ==> NotBy(turns[i].before, w) && NotBy(turns[i].between, w)
      modifies this
      ensures Works(w, Patient(turns), old(View()), View()) && Reachable(View())
      ensures KeeperAt(View(), w) && workers[w].pc == Idle && SameRequest(old(workers[w]), workers[w])
      ensures early == [] && FreeFirst(turns) ==> (workers[w].answered <==> old(Lockable(clusters, workers[w].snap)))
      ensures early == [] && FreeFirst(turns) && late == [] && old(Current(View(), workers[w])) ==>
        (old(Decidable(clusters, workers[w].snap)) ==>
           Recorded(Last(reservations[workers[w].rid].versions), workers[w].answered,
                    old(workers[w].snap.duration), now))
      ensures workers[w].snap.target == old(workers[w].snap.target)
    {
      ghost var s0 := View();
      Yield(w, early);
      ghost var s1 := View();
      AddFinalizer(w, now, []);
      Stepped(w, Patient(turns), s0, s1, Finalize(w, true, now, []), View());
      KeeperInPlace(View(), w);
      ghost var s2 := View();
      LockAndRecord(w, now, turns, late);
      Onward(w, Patient(turns), s0, s2, View());
      LeadsKeepsRequest(s0, View(), w);
    }

    /** It stops only on a panic; otherwise it writes a status and is done. */
    method LockAndRecord(w: nat, now: int, turns: seq<Attempt>, late: seq<Event>)
      requires Reachable(View()) && KeeperAt(View(), w) && workers[w].pc == LockReading && workers[w].handler
      requires !workers[w].answered
      requires NotBy(late, w)
      requires forall i :: 0 <= i < |turns| ==> NotBy(turns[i].before, w) && NotBy(turns[i].between, w)
      modifies this
      ensures Works(w, Patient(turns), old(View()), View()) && Reachable(View())
      ensures KeeperAt(View(), w) && workers[w].pc == Idle
      ensures FreeFirst(turns) ==> (workers[w].answered <==> old(Lockable(clusters, workers[w].snap)))
      ensures FreeFirst(turns) && late == [] && old(Current(View(), workers[w])) ==>
        (old(Decidable(clusters, workers[w].snap)) ==>
           Recorded(Last(reservations[workers[w].rid].versions), workers[w].answered,
                    old(workers[w].snap.duration), now))
      ensures workers[w].snap.target == old(workers[w].snap.target)
    {
      ghost var s0 := View();
      var outcome := LockWithRetry(w, turns);
      LeadsKeepsRequest(s0, View(), w);
      if outcome != Panicked {
        ghost var s1 := View();
        var stored := Conclude(w, now, late);
        Onward(w, Patient(turns), s0, s1, View());
      }
    }

    // ----- the reservation reconciler -----

    /**
     One Reconcile from its (possibly stale) read to its last API call. `stored` reports that the
     write it ends with was stored; what that version says follows from the one it read.
     */
    method Reconcile(rid: nat, ver: nat, now: int, view: seq<Candidate>, gaps: Gaps, turns: seq<Attempt>,
                     listing: seq<ClusterId>, behind: nat)
      returns (stored: bool)
      requires Reachable(View()) && rid < |reservations| && ver < |reservations[rid].versions|
      requires gaps.NotOf(|workers|)
      requires forall i :: 0 <= i < |turns| ==> NotBy(turns[i].before, |workers|) && NotBy(turns[i].between, |workers|)
      modifies this
      ensures Works(old(|workers|), Patient(turns), old(View()), View()) && Reachable(View())
      ensures old(NothingToDo(reservations[rid].versions[ver], now)) ==> !stored && View() == old(View())
      ensures old(!NothingToDo(reservations[rid].versions[ver], now)) ==>
        KeeperAt(View(), old(|workers|)) && workers[old(|workers|)].pc == Idle && workers[old(|workers|)].rid == rid
      ensures stored ==>
        && rid < |reservations| && |reservations[rid].versions| > 0
        && Lawful(old(reservations[rid].versions[ver]), now, view, Last(reservations[rid].versions))
        && Last(reservations[rid].versions).requester == old(reservations[rid].versions[ver].requester)
        && Last(reservations[rid].versions).request == old(reservations[rid].versions[ver].request)
      ensures gaps.Empty() && ver + 1 == old(|reservations[rid].versions|) ==>
        && (old(Straight(clusters, reservations[rid].versions[ver], now, listing, behind)) ==> stored)
        && (old(Lockward(clusters, reservations[rid].versions[ver], view)) && FreeFirst(turns) ==>
              && stored && |reservations[rid].versions| > 0
              && (Last(reservations[rid].versions).phase == Reserved <==>
                    old(Lockable(clusters, WithTarget(reservations[rid].versions[ver], view)))))
    {
      IdleExactly(reservations[rid].versions[ver], now, view);
      ghost var s0 := View();
      WorksStays(|workers|, Patient(turns), s0);
      var w := |workers|;
      var pc := First(reservations[rid].versions[ver], now, view);
      if pc == Idle {
        return false;
      }
      Start(rid, ver, now, view, pc);
      Stepped(w, Patient(turns), s0, s0, ReconcileBegin(rid, ver, now, view), View());
      KeeperInPlace(View(), w);
      ghost var s1 := View();
      stored := CarryLawfully(w, now, view, gaps, turns, listing, behind);
      Onward(w, Patient(turns), s0, s1, View());
    }

    /** The reconcile after its read, by the rules. */
    method CarryLawfully(w: nat, now: int, view: seq<Candidate>, gaps: Gaps, turns: seq<Attempt>,
                         listing: seq<ClusterId>, behind: nat)
      returns (stored: bool)
      requires Reachable(View()) && KeeperAt(View(), w) && !workers[w].handler
      requires workers[w].pc == FirstAction(workers[w].snap, now, view) != Idle
      requires gaps.NotOf(w)
      requires forall i :: 0 <= i < |turns| ==> NotBy(turns[i].before, w) && NotBy(turns[i].between, w)
      modifies this
      ensures Works(w, Patient(turns), old(View()), View()) && Reachable(View())
      ensures KeeperAt(View(), w) && workers[w].pc == Idle && workers[w].rid == old(workers[w].rid)
      ensures stored ==>
        var last := Last(reservations[workers[w].rid].versions);
        && Lawful(old(workers[w].snap), now, view, last)
        && last.requester == old(workers[w].snap.requester) && last.request == old(workers[w].snap.request)
      ensures gaps.Empty() && old(Current(View(), workers[w])) ==>
        && (old(Straight(clusters, workers[w].snap, now, listing, behind)) ==> stored)
        && (old(Lockward(clusters, workers[w].snap, view)) && FreeFirst(turns) ==>
              && stored
              && (Last(reservations[workers[w].rid].versions).phase == Reserved <==>
                    old(Lockable(clusters, WithTarget(workers[w].snap, view)))))
    {
      ghost var before, r := clusters, workers[w].snap;
      ghost var snap, closing;
      stored, snap, closing := Carry(w, now, view, gaps, turns, listing, behind, Plan(r, now, view));
      StraightIsDoable(before, r, now, view, listing, behind);
      LockwardIsLocking(before, r, now, view);
      if stored {
        ClosingIsLawful(r, now, view, snap, closing);
      }
    }

    /** The reconcile after its read. */
    method Carry(w: nat, now: int, view: seq<Candidate>, gaps: Gaps, turns: seq<Attempt>,
                 listing: seq<ClusterId>, behind: nat, ghost plan: KeeperPc)
      returns (stored: bool, ghost snap: Reservation, ghost pc: KeeperPc)
      requires w < |workers| && workers[w].Keeper? && plan == Plan(workers[w].snap, now, view)
      requires Reachable(View()) && KeeperAt(View(), w) && !workers[w].handler
      requires workers[w].pc == FirstAction(workers[w].snap, now, view) != Idle
      requires gaps.NotOf(w)
      requires forall i :: 0 <= i < |turns| ==> NotBy(turns[i].before, w) && NotBy(turns[i].between, w)
      modifies this
      ensures Works(w, Patient(turns), old(View()), View()) && Reachable(View())
      ensures KeeperAt(View(), w) && workers[w].pc == Idle && workers[w].rid == old(workers[w].rid)
      ensures stored ==>
        && Prepared(old(workers[w].snap), snap) && pc != Idle && Moved(plan, snap, pc)
        && (plan == LockReading ==> TargetFrom(old(workers[w].snap), view, snap.target))
        && (pc == Marking(Reserved) ==> snap.target != NO_ID)
        && Last(reservations[workers[w].rid].versions) == Closing(pc, snap, now)
      ensures gaps.Empty() && old(Current(View(), workers[w])) ==>
        && (old(Doable(clusters, workers[w].snap, plan, listing, behind)) ==> stored)
        && (plan == LockReading && old(Decidable(clusters, WithTarget(workers[w].snap, view))) && FreeFirst(turns) ==>
              && stored
              && pc == Marking(if old(Lockable(clusters, WithTarget(workers[w].snap, view))) then Reserved else Failed))
    {
      ghost var s0 := View();
      WorksStays(w, Patient(turns), s0);
      Prepare(w, now, view, gaps);
      ghost var s1 := View();
      Onward(w, Patient(turns), s0, s0, s1);
      snap := workers[w].snap;
      stored, pc := Perform(w, now, gaps, turns, listing, behind);
      Onward(w, Patient(turns), s0, s1, View());
    }

    /** Ledger and closing write; pc is what the latter was to be. */
    method Perform(w: nat, now: int, gaps: Gaps, turns: seq<Attempt>, listing: seq<ClusterId>, behind: nat)
      returns (stored: bool, ghost pc: KeeperPc)
      requires Reachable(View()) && KeeperAt(View(), w) && !workers[w].handler
      requires gaps.NotOf(w)
      requires forall i :: 0 <= i < |turns| ==> NotBy(turns[i].before, w) && NotBy(turns[i].between, w)
      requires !workers[w].pc.Finalizing? && !workers[w].pc.Targeting?
      requires !workers[w].pc.LockWriting? && !workers[w].pc.FreeWriting?
      modifies this
      ensures Works(w, Patient(turns), old(View()), View()) && Reachable(View())
      ensures KeeperAt(View(), w) && workers[w].pc == Idle && workers[w].rid == old(workers[w].rid)
      ensures stored ==>
        && pc != Idle && Moved(old(workers[w].pc), old(workers[w].snap), pc)
        && Last(reservations[workers[w].rid].versions) == Closing(pc, old(workers[w].snap), now)
        && (pc == Marking(Reserved) ==> old(workers[w].snap.target) != NO_ID)
      ensures gaps.Empty() && old(Current(View(), workers[w])) ==>
        && (old(Doable(clusters, workers[w].snap, workers[w].pc, listing, behind)) ==> stored)
        && (old(workers[w].pc == LockReading && Decidable(clusters, workers[w].snap)) && FreeFirst(turns) ==>
              stored && pc == Marking(if old(Lockable(clusters, workers[w].snap)) then Reserved else Failed))
    {
      ghost var s0 := View();
      MoveLedger(w, gaps, turns, listing, behind);
      ghost var s1 := View();
      WorksStays(w, Patient(turns), s0);
      Onward(w, Patient(turns), s0, s0, s1);
      pc := workers[w].pc;
      if pc == Marking(Reserved) {
        LockedHasTarget(s1, w);
      }
      stored := Conclude(w, now, gaps.late);
      Onward(w, Patient(turns), s0, s1, View());
    }

    method Start(rid: nat, ver: nat, now: int, view: seq<Candidate>, pc: KeeperPc)
      requires rid < |reservations| && ver < |reservations[rid].versions|
      requires pc == FirstAction(reservations[rid].versions[ver], now, view) != Idle
      modifies this`workers
      ensures Did(old(View()), ReconcileBegin(rid, ver, now, view), View())
      ensures workers == old(workers) + [Keeper(pc, rid, ver, old(reservations[rid].versions[ver]), false, None, false)]
    {
      workers := workers + [Keeper(pc, rid, ver, reservations[rid].versions[ver], false, None, false)];
    }

    /** Finalizer and target, when they are still to be written. */
    method Prepare(w: nat, now: int, view: seq<Candidate>, gaps: Gaps)
      requires Reachable(View()) && KeeperAt(View(), w) && gaps.NotOf(w) && !workers[w].handler
      requires workers[w].pc == FirstAction(workers[w].snap, now, view)
      modifies this
      ensures Works(w, true, old(View()), View()) && Reachable(View())
      ensures KeeperAt(View(), w) && !workers[w].handler && workers[w].rid == old(workers[w].rid)
      ensures workers[w].pc == Idle || workers[w].pc == Plan(old(workers[w].snap), now, view)
      ensures workers[w].pc != Idle ==> Prepared(old(workers[w].snap), workers[w].snap)
      ensures workers[w].pc == LockReading ==> TargetFrom(old(workers[w].snap), view, workers[w].snap.target)
      ensures var plan := old(Plan(workers[w].snap, now, view));
        gaps.Empty() && old(Current(View(), workers[w]))
        && (plan.Marking? || plan == FreeReading || plan == LockReading) ==>
          && workers[w].pc == plan && Current(View(), workers[w]) && clusters == old(clusters)
          && workers[w].snap.target == (if plan == LockReading then old(WithTarget(workers[w].snap, view)).target
                                        else old(workers[w].snap.target))
    {
      ghost var s0 := View();
      Yield(w, gaps.early);
      if workers[w].pc == Finalizing {
        ghost var s1 := View();
        AddFinalizer(w, now, view);
        Stepped(w, true, s0, s1, Finalize(w, true, now, view), View());
        KeeperInPlace(View(), w);
      }
      if workers[w].pc.Targeting? {
        ghost var s2 := View();
        PrepareTarget(w, gaps.beforeTarget);
        Onward(w, true, s0, s2, View());
      }
    }

    /** Others, then the write of the chosen target. */
    method PrepareTarget(w: nat, before: seq<Event>)
      requires Reachable(View()) && KeeperAt(View(), w) && NotBy(before, w) && !workers[w].handler
      requires workers[w].pc.Targeting?
      modifies this
      ensures Works(w, true, old(View()), View()) && Reachable(View())
      ensures KeeperAt(View(), w) && !workers[w].handler && workers[w].rid == old(workers[w].rid)
      ensures workers[w].pc == Idle || workers[w].pc == LockReading
      ensures workers[w].pc != Idle ==> workers[w].snap == old(workers[w].snap).(target := old(workers[w].pc.choice))
      ensures before == [] && old(Current(View(), workers[w])) ==>
        workers[w].pc == LockReading && Current(View(), workers[w]) && clusters == old(clusters)
    {
      ghost var s0 := View();
      Yield(w, before);
      ghost var s1 := View();
      WriteTarget(w);
      Stepped(w, true, s0, s1, Retarget(w), View());
      KeeperInPlace(View(), w);
    }

    /** The lock or the release, if this reconcile does one. */
    method MoveLedger(w: nat, gaps: Gaps, turns: seq<Attempt>, listing: seq<ClusterId>, behind: nat)
      requires Reachable(View()) && KeeperAt(View(), w) && gaps.NotOf(w) && !workers[w].handler
      requires forall i :: 0 <= i < |turns| ==> NotBy(turns[i].before, w) && NotBy(turns[i].between, w)
      requires !workers[w].pc.Finalizing? && !workers[w].pc.Targeting?
      requires !workers[w].pc.LockWriting? && !workers[w].pc.FreeWriting?
      modifies this
      ensures Works(w, Patient(turns), old(View()), View()) && Reachable(View())
      ensures KeeperAt(View(), w) && SameCopy(old(workers[w]), workers[w])
      ensures workers[w].pc == Idle || Moved(old(workers[w].pc), workers[w].snap, workers[w].pc)
      ensures old(workers[w].pc.Marking?) ==> View() == old(View())
      ensures gaps.Empty() && behind == 0 && old(workers[w].pc == FreeReading && workers[w].snap.target in listing
                                                 && Releasable(clusters, workers[w].snap.target)) ==>
        workers[w].pc != Idle && SameVersions(old(reservations), reservations)
      ensures FreeFirst(turns) && old(workers[w].pc == LockReading && Decidable(clusters, workers[w].snap)) ==>
        && workers[w].pc == Marking(if old(Lockable(clusters, workers[w].snap)) then Reserved else Failed)
        && SameVersions(old(reservations), reservations)
    {
      ghost var s0 := View();
      WorksStays(w, Patient(turns), s0);
      if workers[w].pc == LockReading {
        var outcome := LockWithRetry(w, turns);
      } else if workers[w].pc == FreeReading {
        Yield(w, gaps.beforeList);
        ghost var s1 := View();
        StoresAreFilled(s1);
        var items := List(listing, behind);
        ReleaseResources(w, items, gaps.middle);
        Onward(w, Patient(turns), s0, s0, s1);
        Onward(w, Patient(turns), s0, s1, View());
      }
    }

    /** The closing status write or finalizer removal. */
    method Conclude(w: nat, now: int, late: seq<Event>) returns (stored: bool)
      requires Reachable(View()) && KeeperAt(View(), w) && NotBy(late, w)
      requires workers[w].pc == Idle || workers[w].pc.Marking? || workers[w].pc == Unfinalizing
      modifies this
      ensures Works(w, true, old(View()), View()) && Reachable(View())
      ensures KeeperAt(View(), w) && workers[w].pc == Idle && workers[w].rid == old(workers[w].rid)
      ensures stored ==>
        && old(workers[w].pc) != Idle
        && Last(reservations[workers[w].rid].versions) == Closing(old(workers[w].pc), old(workers[w].snap), now)
      ensures late == [] && old(workers[w].pc != Idle && Current(View(), workers[w])) ==> stored
      ensures old(workers[w].pc != Unfinalizing) ==> workers[w].snap.target == old(workers[w].snap.target)
      ensures old(workers[w].pc.Marking?) ==>
        workers[w].answered == old(workers[w].handler && workers[w].pc == Marking(Reserved))
    {
      ghost var s0 := View();
      Yield(w, late);
      ghost var s1 := View();
      stored := false;
      if workers[w].pc.Marking? {
        stored := MarkStatus(w, now);
        Stepped(w, true, s0, s1, Mark(w, true, now), View());
      } else if workers[w].pc == Unfinalizing {
        stored := RemoveFinalizer(w);
        Stepped(w, true, s0, s1, Unfinalize(w), View());
      }
      KeeperInPlace(View(), w);
    }

    /** The cached list: those of the named clusters that exist, each some versions old. */
    method List(names: seq<ClusterId>, behind: nat) returns (listing: seq<Listed>)
      requires forall c :: c in clusters ==> |clusters[c]| > 0
      ensures FromStore(listing, clusters)
      ensures forall c :: c in names && c in clusters ==> exists l :: l in listing && l.id == c
      ensures forall l :: l in listing ==> l.id in clusters && l.ver == Cached(clusters[l.id], behind)
    {
      listing := [];
      for i := 0 to |names|
        invariant FromStore(listing, clusters)
        invariant forall l :: l in listing ==> l.ver == Cached(clusters[l.id], behind)
        invariant forall c :: c in names[..i] && c in clusters ==> exists l :: l in listing && l.id == c
      {
        if names[i] in clusters {
          ghost var before := listing;
          var item := Listed(names[i], Cached(clusters[names[i]], behind));
          listing := listing + [item];
          assert forall l :: l in before ==> l in listing;
          assert item in listing;
        }
      }
    }

    // ----- advertisements -----

    /** PostAdvertisement from the agent's GET to the broker's write; `early` and `late` run in between. */
    method PostAdvertisement(c: ClusterId, payload: Payload, seen: Option<nat>, early: seq<Event>,
                             miss: bool, behind: nat, late: seq<Event>)
      returns (ok: bool)
      requires Reachable(View()) && c != NO_ID
      requires seen.Some? ==> c in clusters && seen.value < |clusters[c]|
      requires NotBy(early, |workers|) && NotBy(late, |workers|)
      modifies this
      ensures Works(old(|workers|), true, old(View()), View()) && Reachable(View())
      ensures ok ==>
        && Exists(View(), c) && Last(clusters[c]).origin.Published?
        && Carries(Last(clusters[c]).advert, payload)
        && (|clusters[c]| == 1 || Last(clusters[c]).advert.metrics.reserved
                                  == clusters[c][|clusters[c]| - 2].advert.metrics.reserved)
      ensures late == [] && behind == 0 && !miss ==> ok
      ensures |workers| > old(|workers|) && workers[old(|workers|)] == Publisher(PostDone, c, payload)
    {
      ghost var s0 := View();
      WorksStays(|workers|, true, s0);
      var w := |workers|;
      Send(c, payload, seen);
      Stepped(w, true, s0, s0, PublishBegin(c, payload, seen), View());
      ghost var s1 := View();
      Interfere(early);
      ghost var s2 := View();
      RanKeepsWorker(s1, early, s2, w);
      Onward(w, true, s0, s1, s2);
      ok := HandlePost(w, miss, behind, late);
      Onward(w, true, s0, s2, View());
      if ok && |clusters[c]| > 1 {
        PublishedKeepsLedger(View(), c);
      }
    }

    /** The broker's side of it: read, merge and write. */
    method HandlePost(w: nat, miss: bool, behind: nat, late: seq<Event>) returns (ok: bool)
      requires Reachable(View()) && NotBy(late, w)
      requires w < |workers| && workers[w].Publisher? && workers[w].post.PostReading?
      modifies this
      ensures Works(w, true, old(View()), View()) && Reachable(View())
      ensures w < |workers| && workers[w] == old(workers[w]).(post := PostDone)
      ensures var wk := old(workers[w]);
        ok ==> Exists(View(), wk.cluster) && Last(clusters[wk.cluster]).origin.Published?
               && Carries(Last(clusters[wk.cluster]).advert, wk.payload)
      ensures late == [] && behind == 0 && !miss ==> ok
    {
      ghost var s0 := View();
      WorksStays(w, true, s0);
      StoresAreFilled(s0);
      ghost var e := ReadForPost(w, miss, behind);
      ghost var s1 := View();
      Stepped(w, true, s0, s0, e, s1);
      Interfere(late);
      ghost var s2 := View();
      RanKeepsWorker(s1, late, s2, w);
      Onward(w, true, s0, s1, s2);
      PublisherFindsIts(s2, w);
      if late == [] {
        assert Exec(s1, late) == s2 == s1;
      }
      ok := WritePost(w);
      Stepped(w, true, s0, s2, PostCommit(w), View());
    }

    /** The agent's own GET, whose Reserved it echoes, and its request. */
    method Send(c: ClusterId, payload: Payload, seen: Option<nat>)
      requires c != NO_ID
      requires seen.Some? ==> c in clusters && seen.value < |clusters[c]|
      modifies this`workers
      ensures Did(old(View()), PublishBegin(c, payload, seen), View())
      ensures workers == old(workers) + [Publisher(PostReading(
        if seen.Some? then clusters[c][seen.value].advert.metrics.reserved else None), c, payload)]
    {
      var echo := None;
      if seen.Some? {
        echo := clusters[c][seen.value].advert.metrics.reserved;
      }
      workers := workers + [Publisher(PostReading(echo), c, payload)];
    }

    /** Fetch the stored record, convert the posted one, and put the stored Reserved back. */
    method ReadForPost(w: nat, miss: bool, behind: nat) returns (ghost e: Event)
      requires forall c :: c in clusters ==> |clusters[c]| > 0
      requires w < |workers| && workers[w].Publisher? && workers[w].post.PostReading?
      modifies this`workers
      ensures e.PostRead? && e.w == w && Did(old(View()), e, View())
      ensures w < |workers| && workers[w].Publisher? && workers[w] == old(workers[w]).(post := workers[w].post)
      ensures clusters == old(clusters) && (workers[w].post.PostWriting? || workers[w].post.PostCreating?)
      ensures Carries(workers[w].post.copy, workers[w].payload)
      ensures !miss && behind == 0 ==>
        if workers[w].cluster in clusters
        then workers[w].post.PostWriting? && workers[w].post.base + 1 == |clusters[workers[w].cluster]|
        else workers[w].post.PostCreating?
    {
      var wk := workers[w];
      var p := wk.payload;
      var advert := Advert(Metrics(p.allocatable, p.inUse, wk.post.echo, p.available), false, p.timestamp, false);
      if miss || wk.cluster !in clusters {
        workers := workers[w := wk.(post := PostCreating(advert))];
        return PostRead(w, None);
      }
      var read := Cached(clusters[wk.cluster], behind);
      var existing := clusters[wk.cluster][read].advert;
      if existing.metrics.reserved.Some? {
        advert := advert.(metrics := advert.metrics.(reserved := existing.metrics.reserved));
      }
      advert := advert.(active := existing.active);
      workers := workers[w := wk.(post := PostWriting(read, advert))];
      e := PostRead(w, Some(read));
    }

    method WritePost(w: nat) returns (ok: bool)
      requires w < |workers| && workers[w].Publisher? && (workers[w].post.PostWriting? || workers[w].post.PostCreating?)
      requires workers[w].post.PostWriting? ==> Exists(View(), workers[w].cluster)
      modifies this
      ensures Did(old(View()), PostCommit(w), View())
      ensures var wk := old(workers[w]);
        ok ==> Exists(View(), wk.cluster) && Last(clusters[wk.cluster]) == Version(wk.post.copy, Published)
      ensures ok <==> old(var wk := workers[w];
        if wk.post.PostWriting? then wk.post.base + 1 == |clusters[wk.cluster]| else wk.cluster !in clusters)
      ensures workers == old(workers)[w := old(workers)[w].(post := PostDone)]
    {
      var wk := workers[w];
      workers := workers[w := wk.(post := PostDone)];
      if wk.post.PostWriting? {
        ok := wk.post.base + 1 == |clusters[wk.cluster]|;
        if ok {
          clusters := clusters[wk.cluster := clusters[wk.cluster] + [Version(wk.post.copy, Published)]];
        }
      } else {
        ok := wk.cluster !in clusters;
        if ok {
          clusters := clusters[wk.cluster := [Version(wk.post.copy, Published)]];
        }
      }
    }

    /**
     The advertisement reconcile: recompute Available in place on the version read, write it, then
     write the status either way. Others run before each write (early, late). `marked` reports a
     stored status, which means that the record is settled and the flag is right for it.
     */
    method ReconcileAdvertisement(c: ClusterId, behind: nat, test: StaleTest, early: seq<Event>, late: seq<Event>)
      returns (marked: bool)
      requires Reachable(View()) && Exists(View(), c)
      requires NotBy(early, |workers|) && NotBy(late, |workers|)
      modifies this
      ensures Works(old(|workers|), true, old(View()), View()) && Reachable(View()) && Exists(View(), c)
      ensures marked ==>
        && Settled(clusters[c]) && Last(clusters[c]).origin == StatusSet(test)
        && Last(clusters[c]).advert.active
           == !(test.now - Last(clusters[c]).advert.timestamp > if test.configured == 0 then 120 else test.configured)
        && HasFormula(Last(clusters[c]).advert.metrics)
      ensures marked ==> Cached(old(clusters)[c], behind) + 1 == |old(clusters)[c]|
      ensures behind == 0 && early == [] && late == [] && GpuComplete(Last(old(clusters)[c]).advert.metrics) ==> marked
      ensures early == [] && late == [] ==> reservations == old(reservations) && clusters.Keys == old(clusters.Keys)
      ensures early == [] && late == [] && !marked ==> clusters == old(clusters)
    {
      ghost var s0 := View();
      WorksStays(|workers|, true, s0);
      var read := Cached(clusters[c], behind);
      if !GpuComplete(clusters[c][read].advert.metrics) {
        return false;
      }
      var w := |workers|;
      Recalculate(c, read);
      Stepped(w, true, s0, s0, RecalcBegin(c, read), View());
      ghost var s1 := View();
      FinishSpec(w, test, early);
      ghost var s2 := View();
      Onward(w, true, s0, s1, s2);
      marked := FinishStatus(w, test, late);
      Onward(w, true, s0, s2, View());
      if marked {
        SettledHasFormula(View(), c);
      }
    }

    method FinishSpec(w: nat, test: StaleTest, early: seq<Event>)
      requires Reachable(View()) && w < |workers| && workers[w].Recalculator? && workers[w].recalc.RecalcWriting?
      requires NotBy(early, w) && Exists(View(), workers[w].cluster)
      requires workers[w].recalc.base < |clusters[workers[w].cluster]|
      modifies this
      ensures Works(w, true, old(View()), View()) && Reachable(View())
      ensures var c := old(workers[w].cluster);
        && w < |workers| && Exists(View(), c)
        && RightWhenCurrent(clusters[c], workers[w], test) && workers[w].cluster == c
        && (workers[w].recalc.base + 1 == |clusters[c]| ==>
              old(workers[w].recalc.base + 1 == |clusters[workers[w].cluster]|))
      ensures early == [] ==>
        && reservations == old(reservations) && clusters.Keys == old(clusters.Keys)
        && (old(workers[w].recalc.base + 1 == |clusters[workers[w].cluster]|) ==>
              workers[w].recalc.base + 1 == |clusters[workers[w].cluster]|)
        && (old(workers[w].recalc.base + 1 != |clusters[workers[w].cluster]|) ==> clusters == old(clusters))
    {
      ghost var s0 := View();
      YieldAdvert(w, early);
      ghost var s1 := View();
      WriteRecalculated(w, test);
      WorksStays(w, true, s0);
      Onward(w, true, s0, s0, s1);
      Stepped(w, true, s0, s1, RecalcCommit(w, true, test), View());
    }

    /** Let others run, keeping this recalculator where it is; its cluster only gains versions. */
    method YieldAdvert(w: nat, events: seq<Event>)
      requires Reachable(View()) && w < |workers| && workers[w].Recalculator? && NotBy(events, w)
      requires Exists(View(), workers[w].cluster)
      modifies this
      ensures Works(w, true, old(View()), View()) && Reachable(View())
      ensures w < |workers| && workers[w] == old(workers[w]) && Exists(View(), workers[w].cluster)
      ensures old(clusters[workers[w].cluster]) <= clusters[workers[w].cluster]
      ensures events == [] ==> View() == old(View())
    {
      ghost var s0 := View();
      Interfere(events);
      RanKeepsWorker(s0, events, View(), w);
      assert Exec(s0, events) == View();
      ClustersStay(s0, events, workers[w].cluster);
    }

    method FinishStatus(w: nat, test: StaleTest, late: seq<Event>) returns (marked: bool)
      requires Reachable(View()) && w < |workers| && workers[w].Recalculator? && NotBy(late, w)
      requires Exists(View(), workers[w].cluster) && RightWhenCurrent(clusters[workers[w].cluster], workers[w], test)
      modifies this
      ensures Works(w, true, old(View()), View()) && Reachable(View())
      ensures var c := old(workers[w].cluster);
        && Exists(View(), c)
        && (marked ==>
              && Settled(clusters[c]) && Last(clusters[c]).origin == StatusSet(test)
              && Last(clusters[c]).advert.active == !(test.now - Last(clusters[c]).advert.timestamp > test.Threshold())
              && old(workers[w].recalc.base + 1 == |clusters[workers[w].cluster]|))
      ensures late == [] ==>
        && (marked <==> old(workers[w].recalc.base + 1 == |clusters[workers[w].cluster]|))
        && reservations == old(reservations) && clusters.Keys == old(clusters.Keys)
      ensures late == [] && !marked ==> clusters == old(clusters)
    {
      ghost var s0 := View();
      YieldAdvert(w, late);
      ghost var s1 := View();
      ghost var h := clusters[workers[w].cluster];
      marked := WriteStatus(w);
      Stepped(w, true, s0, s1, StatusCommit(w), View());
      if marked {
        ghost var h' := clusters[s1.workers[w].cluster];
        assert h'[..|h'| - 1] == h;
      }
    }

    /** Read a version and recompute Available on the copy. */
    method Recalculate(c: ClusterId, read: nat)
      requires c in clusters && read < |clusters[c]| && GpuComplete(clusters[c][read].advert.metrics)
      modifies this`workers
      ensures Did(old(View()), RecalcBegin(c, read), View())
      ensures var advert := clusters[c][read].advert;
        workers == old(workers)
          + [Recalculator(RecalcWriting(read, advert.(metrics := Recalculated(advert.metrics))), c)]
    {
      var advert := clusters[c][read].advert;
      var metrics := new ResourceMetrics(advert.metrics);
      metrics.UpdateAvailableResources();
      workers := workers + [Recalculator(RecalcWriting(read, advert.(metrics := metrics.View())), c)];
    }

    /** The spec write; its failure is only logged. */
    method WriteRecalculated(w: nat, test: StaleTest)
      requires w < |workers| && workers[w].Recalculator? && workers[w].recalc.RecalcWriting?
      requires Exists(View(), workers[w].cluster)
      modifies this
      ensures Did(old(View()), RecalcCommit(w, true, test), View())
      ensures reservations == old(reservations)
      ensures var wk := old(workers[w]); var h := old(clusters[workers[w].cluster]);
        var active := !(test.now - wk.recalc.copy.timestamp > test.Threshold());
        if wk.recalc.base + 1 == |h| then
          && clusters == old(clusters)[wk.cluster := h + [Version(wk.recalc.copy, Recomputed)]]
          && workers == old(workers)[w := wk.(recalc := StatusWriting(|h|, active, test))]
        else
          && clusters == old(clusters)
          && workers == old(workers)[w := wk.(recalc := StatusWriting(wk.recalc.base, active, test))]
    {
      var wk := workers[w];
      var h := clusters[wk.cluster];
      var threshold := test.configured;
      if threshold == 0 {
        threshold := DEFAULT_THRESHOLD;
      }
      var active := !(test.now - wk.recalc.copy.timestamp > threshold);
      var base := wk.recalc.base;
      if base + 1 == |h| {
        clusters := clusters[wk.cluster := h + [Version(wk.recalc.copy, Recomputed)]];
        base := |h|;
      }
      workers := workers[w := wk.(recalc := StatusWriting(base, active, test))];
    }

    method WriteStatus(w: nat) returns (ok: bool)
      requires w < |workers| && workers[w].Recalculator? && workers[w].recalc.StatusWriting?
      requires Exists(View(), workers[w].cluster)
      modifies this
      ensures Did(old(View()), StatusCommit(w), View())
      ensures reservations == old(reservations)
      ensures ok <==> old(workers[w].recalc.base + 1 == |clusters[workers[w].cluster]|)
      ensures var wk := old(workers[w]); var h := old(clusters[workers[w].cluster]);
        clusters == if ok
          then old(clusters)[wk.cluster := h + [Version(Last(h).advert.(active := wk.recalc.active),
                                                        StatusSet(wk.recalc.decided))]]
          else old(clusters)
    {
      var wk := workers[w];
      var h := clusters[wk.cluster];
      ok := wk.recalc.base + 1 == |h|;
      if ok {
        var marked := Last(h).advert.(active := wk.recalc.active);
        clusters := clusters[wk.cluster := h + [Version(marked, StatusSet(wk.recalc.decided))]];
        workers := workers[w := wk.(recalc := StatusWriting(|h|, wk.recalc.active, wk.recalc.decided))];
      } else {
        workers := workers[w := wk.(recalc := RecalcDone)];
      }
    }
  }

  /**
   The status a recalculator is about to write belongs to a version it wrote itself, if that is
   still the newest one. Versions added by others only make the write fail.
   */
  predicate RightWhenCurrent(h: seq<Version>, wk: Worker, test: StaleTest) {
    && wk.Recalculator? && wk.recalc.StatusWriting? && wk.recalc.decided == test && wk.recalc.base < |h|
    && (wk.recalc.base + 1 == |h| ==>
          && Last(h).origin.Recomputed?
          && wk.recalc.active == !(test.now - Last(h).advert.timestamp > test.Threshold()))
  }

  /** The record is the posted one but for its ledger and its status. */
  predicate Carries(advert: Advert, p: Payload) {
    && advert.metrics.(reserved := None) == Metrics(p.allocatable, p.inUse, None, p.available)
    && advert.timestamp == p.timestamp && !advert.hasCost
  }

  /** Available is what is allocatable, less the pods, less the ledger. */
  predicate HasFormula(m: Metrics) {
    var r := if m.reserved.Some? then m.reserved.value.amount else Amount(0, 0);
    && m.available.amount.cpu == m.allocatable.amount.cpu - m.inUse.amount.cpu - r.cpu
    && m.available.amount.memory == m.allocatable.amount.memory - m.inUse.amount.memory - r.memory
  }

  /** The newest version has the request less in its ledger than the one before, and the formula. */
  predicate TookOff(h: seq<Version>, request: Amount) {
    && |h| > 1
    && var before, after := h[|h| - 2].advert.metrics, h[|h| - 1].advert.metrics;
      && before.reserved.Some? && after.reserved.Some?
      && after.reserved.value.amount.cpu == before.reserved.value.amount.cpu - request.cpu
      && after.reserved.value.amount.memory == before.reserved.value.amount.memory - request.memory
      && after.allocatable == before.allocatable && after.inUse == before.inUse && HasFormula(after)
  }

  lemma ReleaseTookOff(s: State, c: ClusterId)
    requires Reachable(s) && c in s.clusters && |s.clusters[c]| > 0 && Last(s.clusters[c]).origin.FreedBy?
    ensures TookOff(s.clusters[c], Last(s.clusters[c]).origin.request)
  {
    EveryHistoryIsSerial(s, c);
    var h := s.clusters[c];
    assert LedgerStep(h[|h| - 2], h[|h| - 1]);
  }

  /** The same for a lock. */
  predicate PutOn(h: seq<Version>, request: Amount) {
    && |h| > 1
    && var before, after := h[|h| - 2].advert.metrics, h[|h| - 1].advert.metrics;
      var r := if before.reserved.Some? then before.reserved.value.amount else Amount(0, 0);
      && after.reserved.Some?
      && after.reserved.value.amount.cpu == r.cpu + request.cpu
      && after.reserved.value.amount.memory == r.memory + request.memory
      && before.available.amount.cpu >= request.cpu && before.available.amount.memory >= request.memory
      && after.allocatable == before.allocatable && after.inUse == before.inUse && HasFormula(after)
  }

  lemma LockPutOn(s: State, c: ClusterId)
    requires Reachable(s) && c in s.clusters && |s.clusters[c]| > 0 && Last(s.clusters[c]).origin.LockedBy?
    ensures PutOn(s.clusters[c], Last(s.clusters[c]).origin.request)
  {
    EveryHistoryIsSerial(s, c);
    var h := s.clusters[c];
    assert LedgerStep(h[|h| - 2], h[|h| - 1]);
  }

  lemma SettledHasFormula(s: State, c: ClusterId)
    requires Reachable(s) && c in s.clusters && |s.clusters[c]| > 0 && Settled(s.clusters[c])
    ensures HasFormula(Last(s.clusters[c]).advert.metrics)
  {
    EveryHistoryIsSerial(s, c);
    SettledIsConsistent(s.clusters[c]);
  }

  // ----- how a reconcile ends -----

  /** What a reconcile of version r sets out to do, after the finalizer and the target are written. */
  function Plan(r: Reservation, now: int, view: seq<Candidate>): KeeperPc {
    var first := FirstAction(r, now, view);
    var pc := if first == Finalizing then Dispatch(r, now, view) else first;
    if pc.Targeting? then LockReading else pc
  }

  predicate Prepared(r: Reservation, snap: Reservation) {
    && snap == r.(finalizer := snap.finalizer, target := snap.target)
    && (r.target != NO_ID ==> snap.target == r.target)
  }

  /** What follows the lock or the release. */
  predicate Moved(plan: KeeperPc, snap: Reservation, pc: KeeperPc) {
    match plan
    case LockReading => pc == Marking(Reserved) || pc == Marking(Failed)
    case FreeReading => pc == AfterFree(snap)
    case _ => pc == plan
  }

  /** The content of the closing write. */
  function Closing(pc: KeeperPc, snap: Reservation, now: int): Reservation {
    if pc.Marking? then WithPhase(snap, pc.phase, now) else snap.(finalizer := false, gone := true)
  }

  lemma LockedHasTarget(s: State, w: nat)
    requires Reachable(s) && KeeperAt(s, w) && s.workers[w].pc == Marking(Reserved)
    ensures s.workers[w].snap.target != NO_ID
  {
    ReachableKeeps(s);
    assert WorkerOK(s.clusters, s.reservations, w, s.workers[w]);
  }

  lemma ClosingIsLawful(r: Reservation, now: int, view: seq<Candidate>, snap: Reservation, pc: KeeperPc)
    requires Prepared(r, snap) && pc != Idle && Moved(Plan(r, now, view), snap, pc)
    requires pc == Marking(Reserved) ==> snap.target != NO_ID
    requires Plan(r, now, view) == LockReading ==> TargetFrom(r, view, snap.target)
    ensures Lawful(r, now, view, Closing(pc, snap, now))
  {
  }

  /** A reconcile of r that only has to record, promote or release, and can. */
  predicate Straight(clusters: map<ClusterId, seq<Version>>, r: Reservation, now: int,
                     listing: seq<ClusterId>, behind: nat)
  {
    || (!r.gone && !r.deleting && !Valid(r))
    || Promotes(r)
    || (Releases(r, now) && !Promotes(r) && behind == 0 && r.target in listing && Releasable(clusters, r.target))
  }

  lemma StraightIsDoable(clusters: map<ClusterId, seq<Version>>, r: Reservation, now: int, view: seq<Candidate>,
                         listing: seq<ClusterId>, behind: nat)
    ensures Straight(clusters, r, now, listing, behind) ==> Doable(clusters, r, Plan(r, now, view), listing, behind)
  {
  }

  predicate Doable(clusters: map<ClusterId, seq<Version>>, r: Reservation, pc: KeeperPc,
                   listing: seq<ClusterId>, behind: nat)
  {
    pc.Marking? || (pc == FreeReading && behind == 0 && r.target in listing && Releasable(clusters, r.target))
  }

  /** With the target it names, or else the one the engine chooses. */
  function WithTarget(r: Reservation, view: seq<Candidate>): Reservation {
    var choice := Choice(view, Query(r.requester, r.request, r.priority));
    if r.target == NO_ID && choice.Some? && choice.value < |view| then r.(target := view[choice.value].id) else r
  }

  /** An open reservation with a target, or for which the engine finds one, whose lock attempt is decided. */
  predicate Lockward(clusters: map<ClusterId, seq<Version>>, r: Reservation, view: seq<Candidate>) {
    && !r.gone && !r.deleting && Valid(r) && (r.phase == Unset || r.phase == Pending)
    && (r.target != NO_ID || Choice(view, Query(r.requester, r.request, r.priority)).Some?)
    && Decidable(clusters, WithTarget(r, view))
  }

  lemma LockwardIsLocking(clusters: map<ClusterId, seq<Version>>, r: Reservation, now: int, view: seq<Candidate>)
    ensures Lockward(clusters, r, view) ==> Plan(r, now, view) == LockReading
  {
    ChoiceIsBest(view, QueryOf(r));
  }

  /** A lock that reads and writes the current record of its target is granted. */
  predicate Lockable(clusters: map<ClusterId, seq<Version>>, r: Reservation) {
    && r.target in clusters && |clusters[r.target]| > 0
    && HasRoom(Last(clusters[r.target]).advert.metrics, r.request)
    && GpuCounted(Last(clusters[r.target]).advert.metrics)
  }

  /** At least what is asked for is available, in both components. */
  predicate HasRoom(m: Metrics, request: Amount) {
    m.available.amount.cpu >= request.cpu && m.available.amount.memory >= request.memory
  }

  predicate GpuCounted(m: Metrics) {
    m.allocatable.gpu.None? || m.inUse.gpu.Some?
  }

  /** A lock attempt on the current record is decided one way or the other. */
  predicate Decidable(clusters: map<ClusterId, seq<Version>>, r: Reservation) {
    r.target in clusters && |clusters[r.target]| > 0 && HasRoom(Last(clusters[r.target]).advert.metrics, r.request) ==>
      GpuCounted(Last(clusters[r.target]).advert.metrics)
  }

  /** A release that reads and writes the current record of c goes through. */
  predicate Releasable(clusters: map<ClusterId, seq<Version>>, c: ClusterId) {
    && c in clusters && |clusters[c]| > 0
    && Last(clusters[c]).advert.metrics.reserved.Some? && GpuCounted(Last(clusters[c]).advert.metrics)
  }

  predicate ReleaseReady(clusters: map<ClusterId, seq<Version>>, c: ClusterId, listing: seq<Listed>) {
    && Releasable(clusters, c)
    && (exists l :: l in listing && l.id == c)
    && (forall l :: l in listing && l.id == c ==> l.ver + 1 == |clusters[c]|)
  }

  predicate SameCopy(wk: Worker, wk': Worker) {
    && wk.Keeper? && wk'.Keeper?
    && wk'.snap == wk.snap && wk'.ver == wk.ver && wk'.rid == wk.rid
    && wk'.handler == wk.handler && wk'.answered == wk.answered
  }

  predicate SameVersions(recs: seq<Record>, recs': seq<Record>) {
    |recs| == |recs'| && forall i :: 0 <= i < |recs| ==> recs'[i].versions == recs[i].versions
  }

  /** A new reservation as the request asks for it: on the chosen cluster, open, and nothing else set. */
  predicate AsAsked(r: Reservation, requester: ClusterId, request: Amount, duration: Option<int>, priority: int,
                    view: seq<Candidate>)
  {
    && Chosen(view, Query(requester, request, priority), r.target)
    && r == Reservation(requester, r.target, request, duration, priority,
                        Unset, None, false, false, false, false, false)
  }

  /** The outcome of a handler call, with its deadline counted from now. */
  predicate Recorded(r: Reservation, granted: bool, duration: Option<int>, now: int) {
    && r.phase == (if granted then Reserved else Failed)
    && (granted && duration.Some? ==> r.expiresAt == Some(now + duration.value))
  }

  /** There is room on the chosen cluster, but a lock would stop on a missing GPU count. */
  predicate Uncounted(clusters: map<ClusterId, seq<Version>>, requester: ClusterId, request: Amount, priority: int,
                      view: seq<Candidate>)
  {
    var choice := Choice(view, Query(requester, request, priority));
    && choice.Some? && choice.value < |view|
    && var target := view[choice.value].id;
      && target in clusters && |clusters[target]| > 0
      && HasRoom(Last(clusters[target]).advert.metrics, request)
      && !GpuCounted(Last(clusters[target]).advert.metrics)
  }

  lemma LeadsKeepsVersions(s: State, s': State, rid: nat)
    requires Leads(s, s') && rid < |s.reservations|
    ensures rid < |s'.reservations| && s.reservations[rid].versions <= s'.reservations[rid].versions
  {
    var events: seq<Event> :| Ran(s, events, s');
    assert Exec(s, events) == s';
    VersionsStay(s, events, rid);
  }

  /** The engine's choice from the view is the cluster c. */
  predicate Chosen(view: seq<Candidate>, q: Query, c: ClusterId) {
    Choice(view, q).Some? && Choice(view, q).value < |view| && view[Choice(view, q).value].id == c
  }

  /** Validation and selection come before anything is stored. */
  predicate Refused(requester: ClusterId, request: Amount, priority: int, view: seq<Candidate>) {
    || requester == NO_ID || request.cpu <= 0 || request.memory <= 0
    || Choice(view, Query(requester, request, priority)).None?
  }

  /** The current record of the chosen cluster has room and complete GPU counts. */
  predicate Roomy(clusters: map<ClusterId, seq<Version>>, requester: ClusterId, request: Amount, priority: int,
                  view: seq<Candidate>)
  {
    var choice := Choice(view, Query(requester, request, priority));
    && choice.Some? && choice.value < |view|
    && var target := view[choice.value].id;
      && target in clusters && |clusters[target]| > 0
      && HasRoom(Last(clusters[target]).advert.metrics, request)
      && GpuCounted(Last(clusters[target]).advert.metrics)
  }

  lemma StoresAreFilled(s: State)
    requires Reachable(s)
    ensures forall c :: c in s.clusters ==> |s.clusters[c]| > 0
  {
    ReachableKeeps(s);
  }

  lemma PublisherFindsIts(s: State, w: nat)
    requires Reachable(s) && w < |s.workers| && s.workers[w].Publisher?
    ensures s.workers[w].post.PostWriting? ==> Exists(s, s.workers[w].cluster)
  {
    ReachableKeeps(s);
    assert WorkerOK(s.clusters, s.reservations, w, s.workers[w]);
  }

  lemma PublishedKeepsLedger(s: State, c: ClusterId)
    requires Reachable(s) && c in s.clusters && |s.clusters[c]| > 1 && Last(s.clusters[c]).origin.Published?
    ensures var h := s.clusters[c];
      Last(h).advert.metrics.reserved == h[|h| - 2].advert.metrics.reserved
  {
    ReachableKeeps(s);
    var h := s.clusters[c];
    assert LedgerStep(h[|h| - 2], h[|h| - 1]);
  }

  /** Validation, then the switch on the phase, with the pending branch's selection. */
  method Branch(r: Reservation, now: int, view: seq<Candidate>) returns (pc: KeeperPc)
    ensures pc == Dispatch(r, now, view)
    ensures !Valid(r) <==> pc == Marking(Failed) && !((r.phase == Unset || r.phase == Pending) && Valid(r))
    ensures Valid(r) && r.phase == Reserved ==>
      pc == if r.requesterActive then Marking(Active) else if Overrun(r, now) then FreeReading else Idle
    ensures Valid(r) && r.phase == Active ==>
      pc == if r.requesterReleased || Overrun(r, now) then FreeReading else Idle
    ensures Valid(r) && (r.phase == Failed || r.phase == Released) ==> pc == Idle
    ensures Valid(r) && (r.phase == Unset || r.phase == Pending) ==>
      if r.target != NO_ID then pc == LockReading
      else
        var choice := Choice(view, Query(r.requester, r.request, r.priority));
        if choice.Some? then choice.value < |view| && pc == Targeting(view[choice.value].id) else pc == Marking(Failed)
  {
    if r.requester == NO_ID || r.request.cpu <= 0 || r.request.memory <= 0 {
      return Marking(Failed);
    }
    match r.phase
    case Unset | Pending =>
      if r.target != NO_ID {
        return LockReading;
      }
      var best := SelectBestCluster(view, Query(r.requester, r.request, r.priority));
      ChoiceIsBest(view, QueryOf(r));
      pc := if best.None? then Marking(Failed) else Targeting(view[best.value].id);
    case Reserved =>
      if r.requesterActive {
        return Marking(Active);
      }
      pc := if r.expiresAt.Some? && now > r.expiresAt.value then FreeReading else Idle;
    case Active =>
      if r.requesterReleased {
        return FreeReading;
      }
      pc := if r.expiresAt.Some? && now > r.expiresAt.value then FreeReading else Idle;
    case Failed | Released =>
      pc := Idle;
  }

  /** Deletion first, then the finalizer, then the branches. */
  method First(r: Reservation, now: int, view: seq<Candidate>) returns (pc: KeeperPc)
    ensures pc == FirstAction(r, now, view)
    ensures pc == Idle <==> NothingToDo(r, now)
    ensures !r.gone && r.deleting && r.finalizer ==>
      pc == if r.phase == Reserved || r.phase == Active then FreeReading else Unfinalizing
    ensures !r.gone && !r.deleting && !r.finalizer ==> pc == Finalizing
  {
    if r.gone {
      return Idle;
    }
    if r.deleting {
      if !r.finalizer {
        return Idle;
      }
      return if r.phase != Reserved && r.phase != Active then Unfinalizing else FreeReading;
    }
    if !r.finalizer {
      return Finalizing;
    }
    pc := Branch(r, now, view);
  }

  /** One item of a cached list: a cluster and the version the cache holds of it. */
  datatype Listed = Listed(id: ClusterId, ver: nat)

  predicate FromStore(listing: seq<Listed>, clusters: map<ClusterId, seq<Version>>) {
    forall l :: l in listing ==> l.id in clusters && l.ver < |clusters[l.id]|
  }

  /** The list search of findClusterByID and releaseResources: the first item with the id. */
  method FindCluster(listing: seq<Listed>, id: ClusterId) returns (found: Option<nat>)
    ensures found.Some? ==>
      && found.value < |listing| && listing[found.value].id == id
      && forall j :: 0 <= j < found.value ==> listing[j].id != id
    ensures found.None? <==> forall l :: l in listing ==> l.id != id
  {
    for i := 0 to |listing|
      invariant forall j :: 0 <= j < i ==> listing[j].id != id
    {
      if listing[i].id != id {
        continue;
      }
      return Some(i);
    }
    found := None;
  }

  /** Where a turn of the retry loop leaves its keeper. */
  predicate LockOutcome(s: State, w: nat, outcome: Outcome)
    requires KeeperAt(s, w)
  {
    match outcome
    case Granted => s.workers[w].pc == Marking(Reserved) && LockNewest(s, w)
    case NotFound | Insufficient => s.workers[w].pc == Marking(Failed)
    case Panicked => s.workers[w].pc == Idle
    case Exhausted => s.workers[w].pc == LockReading
  }

  /** The newest version of keeper w's target is its lock. */
  predicate LockNewest(s: State, w: nat)
    requires KeeperAt(s, w)
  {
    && Exists(s, s.workers[w].snap.target)
    && Last(s.clusters[s.workers[w].snap.target]).origin == LockedBy(w, s.workers[w].snap.request)
    && PutOn(s.clusters[s.workers[w].snap.target], s.workers[w].snap.request)
  }
}
