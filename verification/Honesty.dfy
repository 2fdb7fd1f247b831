/**
 What holds when agents post non-negative data, in any run: how far Available can exceed
 Allocatable, and with it when the engine's divisions are defined.
 */
module Honesty {
  import opened Quantities
  import opened Availability
  import opened Decision
  import opened Protocol
  import opened History
  import opened Invariant
  import opened Safety
  import opened Calm

  /** The collector's output: nothing negative, and never more available than allocatable. */
  predicate Honest(p: Payload) {
    && ZERO.AtMost(p.inUse.amount) && ZERO.AtMost(p.available.amount)
    && p.available.amount.AtMost(p.allocatable.amount)
  }

  predicate HonestEvents(events: seq<Event>) {
    forall i :: 0 <= i < |events| && events[i].PublishBegin? ==> Honest(events[i].payload)
  }

  predicate Bounded(m: Metrics) {
    && ZERO.AtMost(m.inUse.amount) && ZERO.AtMost(m.allocatable.amount)
    && m.available.amount.AtMost(m.allocatable.amount)
  }

  /** Pods and ledger together do not come out negative. */
  predicate Covered(m: Metrics, k: Resource) {
    Of(m.inUse.amount, k) + Of(ReservedAmount(m), k) >= 0
  }

  /** What any run keeps: wherever that is so, the record promises no more than is allocatable. */
  predicate Sound(m: Metrics) {
    && ZERO.AtMost(m.inUse.amount) && ZERO.AtMost(m.allocatable.amount)
    && forall k :: Covered(m, k) ==> Of(m.available.amount, k) <= Of(m.allocatable.amount, k)
  }

  ghost predicate VersionsSound(s: State) {
    forall c, j :: c in s.clusters && 0 <= j < |s.clusters[c]| ==> Sound(s.clusters[c][j].advert.metrics)
  }

  predicate PublisherBounded(wk: Worker) {
    wk.Publisher? ==>
      && Honest(wk.payload)
      && (wk.post.PostWriting? || wk.post.PostCreating? ==> Bounded(wk.post.copy.metrics))
  }

  predicate PublishersBounded(s: State) {
    forall w :: 0 <= w < |s.workers| ==> PublisherBounded(s.workers[w])
  }

  lemma NextPublishersBounded(s: State, e: Event)
    requires PublishersBounded(s) && (e.PublishBegin? ==> Honest(e.payload))
    ensures PublishersBounded(Next(s, e))
  {
    var s' := Next(s, e);
    forall w | 0 <= w < |s'.workers| ensures PublisherBounded(s'.workers[w]) {
      OnePublisherBounded(s, e, w);
    }
  }

  lemma OnePublisherBounded(s: State, e: Event, w: nat)
    requires PublishersBounded(s) && (e.PublishBegin? ==> Honest(e.payload)) && w < |Next(s, e).workers|
    ensures PublisherBounded(Next(s, e).workers[w])
  {
    if w < |s.workers| {
      assert PublisherBounded(s.workers[w]);
      if Actor(e) != Some(w) {
        OthersKeepWorker(s, e, w);
      } else if s.workers[w].Publisher? {
        OwnPublisherBounded(s, e, w);
      } else {
        KindStays(s, e, w);
      }
    } else {
      NewPublisherBounded(s, e);
    }
  }

  lemma KindStays(s: State, e: Event, w: nat)
    requires w < |s.workers| && !s.workers[w].Publisher? && Actor(e) == Some(w)
    ensures w < |Next(s, e).workers| && !Next(s, e).workers[w].Publisher?
  {
    if s.workers[w].Recalculator? {
      match e
      case RecalcCommit(_, ok, test) => assert Next(s, e) == DoRecalcCommit(s, w, ok, test);
      case StatusCommit(_) => assert Next(s, e) == DoStatusCommit(s, w);
      case Abort(_) => assert Next(s, e) == DoAbort(s, w);
      case _ =>
    }
  }

  lemma NewPublisherBounded(s: State, e: Event)
    requires e.PublishBegin? ==> Honest(e.payload)
    ensures |s.workers| <= |Next(s, e).workers| <= |s.workers| + 1
    ensures |Next(s, e).workers| == |s.workers| + 1 ==> PublisherBounded(Last(Next(s, e).workers))
  {
  }

  lemma OwnPublisherBounded(s: State, e: Event, w: nat)
    requires w < |s.workers| && s.workers[w].Publisher? && PublisherBounded(s.workers[w]) && Actor(e) == Some(w)
    ensures w < |Next(s, e).workers| && PublisherBounded(Next(s, e).workers[w])
  {
    match e
    case PostRead(_, base) => assert Next(s, e) == DoPostRead(s, w, base);
    case PostCommit(_) => assert Next(s, e) == DoPostCommit(s, w);
    case Abort(_) => assert Next(s, e) == DoAbort(s, w);
    case _ =>
  }

  lemma StepIsSound(a: Version, b: Version)
    requires LedgerStep(a, b) && !b.origin.Published? && Sound(a.advert.metrics)
    ensures Sound(b.advert.metrics)
  {
  }

  lemma NextVersionSound(s: State, e: Event, c: ClusterId, j: nat)
    requires Inv(Next(s, e)) && VersionsSound(s) && PublishersBounded(s)
    requires c in Next(s, e).clusters && j < |Next(s, e).clusters[c]|
    ensures Sound(Next(s, e).clusters[c][j].advert.metrics)
  {
    var h := Next(s, e).clusters[c];
    OneNewVersion(s, e, c);
    if c in s.clusters && j < |s.clusters[c]| {
      assert h[j] == s.clusters[c][j];
    } else if Last(h).origin.Published? {
      assert PublisherBounded(s.workers[e.w]);
    } else {
      assert h[j - 1] == s.clusters[c][j - 1];
      assert LedgerStep(h[j - 1], h[j]);
      StepIsSound(h[j - 1], h[j]);
    }
  }

  lemma {:induction false} HonestRun(events: seq<Event>)
    requires HonestEvents(events)
    ensures VersionsSound(Exec(INIT, events)) && PublishersBounded(Exec(INIT, events))
  {
    if |events| > 0 {
      EveryRunKeeps(events);
      var before := events[..|events| - 1];
      HonestRun(before);
      var s, e := Exec(INIT, before), Last(events);
      NextPublishersBounded(s, e);
      forall c, j | c in Next(s, e).clusters && 0 <= j < |Next(s, e).clusters[c]|
        ensures Sound(Next(s, e).clusters[c][j].advert.metrics)
      {
        NextVersionSound(s, e, c, j);
      }
    }
  }

  /** Some run with honest agents leads from s to s'. */
  ghost predicate HonestlyLeads(s: State, s': State) {
    exists events: seq<Event> :: Ran(s, events, s') && HonestEvents(events)
  }

  lemma HonestlyReachedKeeps(s: State)
    requires HonestlyLeads(INIT, s)
    ensures Reachable(s) && VersionsSound(s)
  {
    var events: seq<Event> :| Ran(INIT, events, s) && HonestEvents(events);
    assert Exec(INIT, events) == s;
    HonestRun(events);
  }

  function CandidateOf(c: ClusterId, adv: Advert): Candidate {
    Candidate(c, adv.metrics.allocatable.amount, adv.metrics.available.amount, adv.hasCost, adv.active)
  }

  // ----- when the score's divisions are defined -----

  /**
   In every run with honest agents, a stored version, however stale, whose pods and ledger do not
   come out negative and that is eligible has positive allocatable CPU and memory.
   */
  lemma FeasibleIsScorable(s: State, c: ClusterId, j: nat, q: Query)
    requires HonestlyLeads(INIT, s) && c in s.clusters && j < |s.clusters[c]|
    requires Eligible(CandidateOf(c, s.clusters[c][j].advert), q) && q.request.Positive()
    requires forall k :: Covered(s.clusters[c][j].advert.metrics, k)
    ensures Scorable(CandidateOf(c, s.clusters[c][j].advert))
  {
    HonestlyReachedKeeps(s);
    var m := s.clusters[c][j].advert.metrics;
    assert Sound(m) && Covered(m, Cpu) && Covered(m, Memory);
  }

  /**
   The condition is exact. A record recalculated since its last POST that has nothing allocatable
   can hold a positive request exactly when its pods and ledger come out negative.
   */
  lemma RoomOnNothing(s: State, c: ClusterId, k: Resource)
    requires Reachable(s) && Exists(s, c) && Settled(s.clusters[c])
    requires Of(Last(s.clusters[c]).advert.metrics.allocatable.amount, k) == 0
    ensures var m := Last(s.clusters[c]).advert.metrics;
      (exists q: Amount :: q.Positive() && Of(q, k) <= Of(m.available.amount, k)) <==> !Covered(m, k)
  {
    EveryHistoryIsSerial(s, c);
    SettledIsConsistent(s.clusters[c]);
    assert Amount(1, 1).Positive() && Of(Amount(1, 1), k) == 1;
  }

  /** A record as its agent posted it never has that problem. */
  lemma PostedIsScorable(s: State, c: ClusterId, j: nat, q: Query)
    requires HonestlyLeads(INIT, s) && c in s.clusters && j < |s.clusters[c]|
    requires s.clusters[c][j].origin.Published? && q.request.Positive()
    requires Eligible(CandidateOf(c, s.clusters[c][j].advert), q)
    ensures Scorable(CandidateOf(c, s.clusters[c][j].advert))
  {
    var events: seq<Event> :| Ran(INIT, events, s) && HonestEvents(events);
    assert Exec(INIT, events) == s;
    PostsBounded(events, c, j);
  }

  lemma {:induction false} PostsBounded(events: seq<Event>, c: ClusterId, j: nat)
    requires HonestEvents(events) && c in Exec(INIT, events).clusters && j < |Exec(INIT, events).clusters[c]|
    requires Exec(INIT, events).clusters[c][j].origin.Published?
    ensures Bounded(Exec(INIT, events).clusters[c][j].advert.metrics)
  {
    if |events| > 0 {
      var before := events[..|events| - 1];
      var s, e := Exec(INIT, before), Last(events);
      OneNewVersion(s, e, c);
      if c in s.clusters && j < |s.clusters[c]| {
        assert Next(s, e).clusters[c][j] == s.clusters[c][j];
        PostsBounded(before, c, j);
      } else {
        HonestRun(before);
        assert PublisherBounded(s.workers[e.w]);
      }
    }
  }

  // ----- calm runs -----

  /** In a calm run no stored version has a negative ledger, so there the condition always holds. */
  lemma CalmLedgersAreNonNegative(s: State, c: ClusterId, j: nat)
    requires CalmlyReached(s) && c in s.clusters && j < |s.clusters[c]|
    ensures ZERO.AtMost(ReservedAmount(s.clusters[c][j].advert.metrics))
  {
    var events: seq<Event> :| CalmTo(events, s);
    assert CalmRun(events) && Exec(INIT, events) == s;
    CalmVersions(events, c, j);
  }

  lemma {:induction false} CalmVersions(events: seq<Event>, c: ClusterId, j: nat)
    requires CalmRun(events) && c in Exec(INIT, events).clusters && j < |Exec(INIT, events).clusters[c]|
    ensures ZERO.AtMost(ReservedAmount(Exec(INIT, events).clusters[c][j].advert.metrics))
  {
    var s := Exec(INIT, events);
    CalmRunKeeps(events);
    if j == |s.clusters[c]| - 1 {
      LedgerCovers(s, c, Cpu);
      LedgerCovers(s, c, Memory);
    } else {
      var before := events[..|events| - 1];
      OneNewVersion(Exec(INIT, before), Last(events), c);
      assert s.clusters[c][j] == Exec(INIT, before).clusters[c][j];
      CalmVersions(before, c, j);
    }
  }

  // ----- what the engine finds among stored records -----

  /** The candidate shows version j of its cluster, however old. */
  predicate ShowsVersion(s: State, p: Candidate, j: nat) {
    p.id in s.clusters && j < |s.clusters[p.id]| && p == CandidateOf(p.id, s.clusters[p.id][j].advert)
  }

  ghost predicate StoredView(s: State, view: seq<Candidate>) {
    forall p :: p in view ==> exists j: nat :: ShowsVersion(s, p, j)
  }

  /** Every candidate shows a version whose pods and ledger do not come out negative. */
  ghost predicate CoveredView(s: State, view: seq<Candidate>) {
    forall p :: p in view ==>
      exists j: nat :: ShowsVersion(s, p, j) && forall k :: Covered(s.clusters[p.id][j].advert.metrics, k)
  }

  /** In a run with honest agents the engine errors exactly when every eligible cluster is an exact fit over nothing. */
  lemma HonestSelection(s: State, view: seq<Candidate>, q: Query)
    requires HonestlyLeads(INIT, s) && StoredView(s, view) && q.priority > -190
    ensures Choice(view, q).None? <==> forall p :: p in view && Eligible(p, q) ==> Unscored(p, q)
  {
    HonestlyReachedKeeps(s);
    forall p | p in view ensures ZERO.AtMost(p.allocatable) {
      var j: nat :| ShowsVersion(s, p, j);
      assert Sound(s.clusters[p.id][j].advert.metrics);
    }
    SelectionComplete(view, q);
  }

  /** Where the shown records are covered, it errors exactly when no cluster is eligible. */
  lemma CoveredSelectionComplete(s: State, view: seq<Candidate>, q: Query)
    requires HonestlyLeads(INIT, s) && CoveredView(s, view) && q.priority > -190 && q.request.Positive()
    ensures Choice(view, q).None? <==> forall p :: p in view ==> !Eligible(p, q)
  {
    forall p | p in view && Eligible(p, q) ensures Scorable(p) {
      var j: nat :| ShowsVersion(s, p, j) && forall k :: Covered(s.clusters[p.id][j].advert.metrics, k);
      FeasibleIsScorable(s, p.id, j, q);
    }
    ScorableSelectionComplete(view, q);
  }

  /** So in a calm run with honest agents it always finds a cluster when one is eligible. */
  lemma CalmSelectionComplete(s: State, view: seq<Candidate>, q: Query)
    requires CalmlyReached(s) && HonestlyLeads(INIT, s)
    requires StoredView(s, view) && q.priority > -190 && q.request.Positive()
    ensures Choice(view, q).None? <==> forall p :: p in view ==> !Eligible(p, q)
  {
    HonestlyReachedKeeps(s);
    forall p | p in view
      ensures exists j: nat :: ShowsVersion(s, p, j) && forall k :: Covered(s.clusters[p.id][j].advert.metrics, k)
    {
      var j: nat :| ShowsVersion(s, p, j);
      CalmLedgersAreNonNegative(s, p.id, j);
      assert Sound(s.clusters[p.id][j].advert.metrics);
    }
    CoveredSelectionComplete(s, view, q);
  }
}
