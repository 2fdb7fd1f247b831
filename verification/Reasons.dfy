/**
 What a reconcile may do to a reservation, spelled out on its fields, and with it why any release
 was ever committed.
 */
module Reasons {
  import opened Quantities
  import opened Decision
  import opened Protocol
  import opened Safety

  // ----- the rules, on the fields of the version read -----

  predicate Valid(r: Reservation) {
    r.requester != NO_ID && r.request.cpu > 0 && r.request.memory > 0
  }

  predicate Overrun(r: Reservation, now: int) {
    r.expiresAt.Some? && now > r.expiresAt.value
  }

  /** Confirmed by its requester and not yet promoted. */
  predicate Promotes(r: Reservation) {
    !r.gone && !r.deleting && Valid(r) && r.phase == Reserved && r.requesterActive
  }

  /** Deleted, given back by its requester, or past its deadline. */
  predicate ReleaseReason(r: Reservation, now: int) {
    || r.deleting
    || (r.phase == Active && r.requesterReleased)
    || (Overrun(r, now) && !(r.phase == Reserved && r.requesterActive))
  }

  predicate Releases(r: Reservation, now: int) {
    && !r.gone && (r.phase == Reserved || r.phase == Active) && ReleaseReason(r, now)
    && (if r.deleting then r.finalizer else Valid(r))
  }

  /** Nothing is left to write for this version. */
  predicate NothingToDo(r: Reservation, now: int) {
    || r.gone
    || (r.deleting && !r.finalizer)
    || (!r.deleting && r.finalizer && Valid(r)
        && (r.phase == Failed || r.phase == Released
            || (r.phase == Reserved && !r.requesterActive && !Overrun(r, now))
            || (r.phase == Active && !r.requesterReleased && !Overrun(r, now))))
  }

  /** The target it named, or else the one the engine chooses. */
  predicate TargetFrom(r: Reservation, view: seq<Candidate>, target: ClusterId) {
    if r.target != NO_ID then target == r.target
    else
      var choice := Choice(view, Query(r.requester, r.request, r.priority));
      choice.Some? && choice.value < |view| && target == view[choice.value].id
  }

  /** What the version a reconcile stores last may say. */
  predicate Lawful(r: Reservation, now: int, view: seq<Candidate>, r': Reservation) {
    && (r.deleting ==> r'.gone)
    && (!r.deleting && !Valid(r) ==> r'.phase == Failed)
    && (!r.deleting && Valid(r) ==>
          match r.phase
          case Unset | Pending =>
            r'.phase == Failed
            || (&& r'.phase == Reserved && r'.target != NO_ID && TargetFrom(r, view, r'.target)
                && (r.duration.Some? ==> r'.expiresAt == Some(now + r.duration.value)))
          case Reserved => if r.requesterActive then r'.phase == Active else r'.phase == Released && Overrun(r, now)
          case Active => r'.phase == Released && (r.requesterReleased || Overrun(r, now))
          case Failed | Released => false)
  }

  lemma IdleExactly(r: Reservation, now: int, view: seq<Candidate>)
    ensures FirstAction(r, now, view) == Idle <==> NothingToDo(r, now)
  {
  }

  lemma FreeNeedsReason(r: Reservation, now: int, view: seq<Candidate>)
    ensures FirstAction(r, now, view) == FreeReading ==> ReleaseReason(r, now)
    ensures !r.deleting && Dispatch(r, now, view) == FreeReading ==> ReleaseReason(r, now)
  {
  }

  /** A status write sets the phase, the deadline when it becomes Reserved, and nothing else. */
  lemma StatusWriteExactly(r: Reservation, p: Phase, now: int)
    ensures var r' := WithPhase(r, p, now);
      && r'.phase == p && r' == r.(phase := p, expiresAt := r'.expiresAt)
      && r'.expiresAt == if p == Reserved && r.duration.Some? then Some(now + r.duration.value) else r.expiresAt
  {
  }

  // ----- every release ever committed -----

  /** Event i gave keeper w the clock reading t: the reconcile's begin, or its finalizer write. */
  predicate ClockRead(events: seq<Event>, w: nat, i: nat, t: int) {
    && i < |events|
    && ((events[i].ReconcileBegin? && |Exec(INIT, events[..i]).workers| == w && t == events[i].now)
        || (events[i].Finalize? && events[i].w == w && t == events[i].now))
  }

  /** Keeper w works on a version with a reason to release it, at a clock reading of its own. */
  ghost predicate Justified(events: seq<Event>, w: nat) {
    var s := Exec(INIT, events);
    && w < |s.workers| && s.workers[w].Keeper?
    && exists i: nat, t :: ClockRead(events, w, i, t) && ReleaseReason(s.workers[w].snap, t)
  }

  predicate Freeing(s: State, w: nat) {
    w < |s.workers| && s.workers[w].Keeper? && (s.workers[w].pc.FreeReading? || s.workers[w].pc.FreeWriting?)
  }

  /** A keeper is freeing because it was before, or because this event found a reason. */
  predicate FreeingFrom(s: State, e: Event, w: nat) {
    var s' := Next(s, e);
    Freeing(s', w) ==>
      || (Freeing(s, w) && s'.workers[w].snap == s.workers[w].snap)
      || (e.ReconcileBegin? && |s.workers| == w && ReleaseReason(s'.workers[w].snap, e.now))
      || (e.Finalize? && e.w == w && ReleaseReason(s'.workers[w].snap, e.now))
  }

  lemma OwnFreeing(s: State, e: Event, w: nat)
    requires w < |s.workers| && s.workers[w].Keeper? && Actor(e) == Some(w)
    requires s.workers[w].pc == Finalizing ==> !s.workers[w].snap.deleting
    ensures FreeingFrom(s, e, w)
  {
    match e
    case Finalize(_, ok, now, view) =>
      assert Next(s, e) == DoFinalize(s, w, ok, now, view);
      FreeNeedsReason(s.workers[w].snap, now, view);
    case Retarget(_) => assert Next(s, e) == DoRetarget(s, w);
    case LockRead(_, base) => assert Next(s, e) == DoLockRead(s, w, base);
    case LockCommit(_) => assert Next(s, e) == DoLockCommit(s, w);
    case LockGiveUp(_) => assert Next(s, e) == DoLockGiveUp(s, w);
    case Mark(_, ok, now) => assert Next(s, e) == DoMark(s, w, ok, now);
    case FreeRead(_, base) => assert Next(s, e) == DoFreeRead(s, w, base);
    case FreeCommit(_) => assert Next(s, e) == DoFreeCommit(s, w);
    case Unfinalize(_) => assert Next(s, e) == DoUnfinalize(s, w);
    case Abort(_) => assert Next(s, e) == DoAbort(s, w);
    case _ =>
  }

  lemma OtherFreeing(s: State, e: Event, w: nat)
    requires w < |s.workers| && Actor(e) != Some(w)
    ensures FreeingFrom(s, e, w)
  {
    OthersKeepWorker(s, e, w);
  }

  lemma NewFreeing(s: State, e: Event)
    ensures |Next(s, e).workers| <= |s.workers| + 1 && FreeingFrom(s, e, |s.workers|)
  {
    if e.ReconcileBegin? && e.rid < |s.reservations| && e.ver < |s.reservations[e.rid].versions| {
      FreeNeedsReason(s.reservations[e.rid].versions[e.ver], e.now, e.view);
    }
  }

  /** A finalizer is never added to a deleted object. */
  predicate FinalizesLive(s: State, w: nat) {
    w < |s.workers| && s.workers[w].Keeper? && s.workers[w].pc == Finalizing ==> !s.workers[w].snap.deleting
  }

  lemma StepFinalizesLive(s: State, e: Event, w: nat)
    requires w < |Next(s, e).workers| && FinalizesLive(s, w)
    ensures FinalizesLive(Next(s, e), w)
  {
    if Actor(e) != Some(w) {
      if w < |s.workers| {
        OthersKeepWorker(s, e, w);
      }
    } else if s.workers[w].Keeper? {
      OwnFinalizesLive(s, e, w);
    } else {
      OtherKindsStay(s, e, w);
    }
  }

  lemma OwnFinalizesLive(s: State, e: Event, w: nat)
    requires w < |s.workers| && s.workers[w].Keeper? && Actor(e) == Some(w) && FinalizesLive(s, w)
    ensures FinalizesLive(Next(s, e), w)
  {
    match e
    case Finalize(_, ok, now, view) => assert Next(s, e) == DoFinalize(s, w, ok, now, view);
    case Retarget(_) => assert Next(s, e) == DoRetarget(s, w);
    case LockRead(_, base) => assert Next(s, e) == DoLockRead(s, w, base);
    case LockCommit(_) => assert Next(s, e) == DoLockCommit(s, w);
    case LockGiveUp(_) => assert Next(s, e) == DoLockGiveUp(s, w);
    case Mark(_, ok, now) => assert Next(s, e) == DoMark(s, w, ok, now);
    case FreeRead(_, base) => assert Next(s, e) == DoFreeRead(s, w, base);
    case FreeCommit(_) => assert Next(s, e) == DoFreeCommit(s, w);
    case Unfinalize(_) => assert Next(s, e) == DoUnfinalize(s, w);
    case Abort(_) => assert Next(s, e) == DoAbort(s, w);
    case _ =>
  }

  lemma StepFreeingFrom(s: State, e: Event, w: nat)
    requires FinalizesLive(s, w)
    ensures FreeingFrom(s, e, w)
  {
    if w < |s.workers| {
      if Actor(e) != Some(w) {
        OtherFreeing(s, e, w);
      } else if s.workers[w].Keeper? {
        OwnFreeing(s, e, w);
      } else {
        OtherKindsStay(s, e, w);
      }
    } else {
      NewFreeing(s, e);
    }
  }

  lemma JustifiedStep(before: seq<Event>, e: Event, w: nat)
    requires Freeing(Exec(INIT, before), w) ==> Justified(before, w)
    requires FreeingFrom(Exec(INIT, before), e, w) && Freeing(Next(Exec(INIT, before), e), w)
    ensures Justified(before + [e], w)
  {
    var s, events := Exec(INIT, before), before + [e];
    ExecSnoc(INIT, before, e);
    var s' := Next(s, e);
    assert Exec(INIT, events) == s' && events[..|before|] == before;
    if Freeing(s, w) && s'.workers[w].snap == s.workers[w].snap {
      var i: nat, t :| ClockRead(before, w, i, t) && ReleaseReason(s.workers[w].snap, t);
      assert events[..i] == before[..i];
      assert ClockRead(events, w, i, t);
    } else {
      assert ClockRead(events, w, |before|, e.now);
    }
  }

  /** Whoever is about to release has a reason, in every run. */
  lemma {:induction false} FreeingIsJustified(events: seq<Event>, w: nat)
    ensures FinalizesLive(Exec(INIT, events), w)
    ensures Freeing(Exec(INIT, events), w) ==> Justified(events, w)
  {
    if |events| > 0 {
      var before, e := events[..|events| - 1], Last(events);
      FreeingIsJustified(before, w);
      assert events == before + [e];
      var s := Exec(INIT, before);
      if w < |Next(s, e).workers| {
        StepFinalizesLive(s, e, w);
      }
      StepFreeingFrom(s, e, w);
      if Freeing(Exec(INIT, events), w) {
        JustifiedStep(before, e, w);
      }
    }
  }

  /** Event n is the commit by which keeper w wrote a release, and w had a reason. */
  ghost predicate ReleasedAt(events: seq<Event>, n: nat, w: nat) {
    n < |events| && events[n] == FreeCommit(w) && Freeing(Exec(INIT, events[..n]), w) && Justified(events[..n], w)
  }

  lemma NewRelease(s: State, e: Event, c: ClusterId)
    requires c in Next(s, e).clusters && |Next(s, e).clusters[c]| > 0
    requires c !in s.clusters || Next(s, e).clusters[c] != s.clusters[c]
    requires Last(Next(s, e).clusters[c]).origin.FreedBy?
    ensures var w := Last(Next(s, e).clusters[c]).origin.worker;
      e == FreeCommit(w) && Freeing(s, w)
  {
  }

  /**
   In every run: each release ever stored was committed by a keeper that had read, at some clock
   reading of its own, a version that was deleted, given back by its requester, or past its deadline.
   */
  lemma {:induction false} EveryReleaseHadAReason(events: seq<Event>, c: ClusterId, j: nat)
    requires c in Exec(INIT, events).clusters && j < |Exec(INIT, events).clusters[c]|
    requires Exec(INIT, events).clusters[c][j].origin.FreedBy?
    ensures exists n: nat :: ReleasedAt(events, n, Exec(INIT, events).clusters[c][j].origin.worker)
  {
    if |events| > 0 {
      var before, e := events[..|events| - 1], Last(events);
      var s := Exec(INIT, before);
      var w := Exec(INIT, events).clusters[c][j].origin.worker;
      OneNewVersion(s, e, c);
      if c in s.clusters && j < |s.clusters[c]| {
        assert s.clusters[c][j] == Exec(INIT, events).clusters[c][j];
        EveryReleaseHadAReason(before, c, j);
        var n: nat :| ReleasedAt(before, n, w);
        assert events[..n] == before[..n];
        assert ReleasedAt(events, n, w);
      } else {
        NewRelease(s, e, c);
        FreeingIsJustified(before, w);
        assert ReleasedAt(events, |before|, w);
      }
    }
  }
}
