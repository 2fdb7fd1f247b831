/**
 How old an Active cluster can be. A status is decided on a copy of the record at one time
 and written at another, with posts in between; still its decision bounds the record's age.
 */
module Staleness {
  import opened Quantities
  import opened Decision
  import opened Protocol
  import opened History
  import opened Safety
  import opened Honesty

  /** Seconds between two reconciles of an advertisement that nothing else triggers. */
  const REQUEUE := 300

  /** The status in version i was decided from some version up to i. */
  ghost predicate Decided(h: seq<Version>, i: nat)
    requires i < |h|
  {
    h[i].origin.StatusSet? ==>
      exists j :: 0 <= j <= i && h[i].advert.active == IsActive(h[j].advert.timestamp, h[i].origin.decided)
  }

  ghost predicate AllDecided(h: seq<Version>) {
    forall i :: 0 <= i < |h| ==> Decided(h, i)
  }

  /** What a recalculator carries comes from a version of its cluster. */
  ghost predicate Grounded(clusters: map<ClusterId, seq<Version>>, wk: Worker) {
    wk.Recalculator? ==> wk.cluster in clusters && GroundedOn(clusters[wk.cluster], wk)
  }

  ghost predicate GroundedOn(h: seq<Version>, wk: Worker)
    requires wk.Recalculator?
  {
    match wk.recalc
    case RecalcWriting(base, copy) => base < |h| && copy.timestamp == h[base].advert.timestamp
    case StatusWriting(_, active, decided) =>
      exists j :: 0 <= j < |h| && active == IsActive(h[j].advert.timestamp, decided)
    case RecalcDone => true
  }

  ghost predicate StatusInv(s: State) {
    && (forall c :: c in s.clusters ==> AllDecided(s.clusters[c]))
    && (forall w :: 0 <= w < |s.workers| ==> Grounded(s.clusters, s.workers[w]))
  }

  lemma GroundedGrows(a: map<ClusterId, seq<Version>>, b: map<ClusterId, seq<Version>>, wk: Worker)
    requires Grounded(a, wk) && wk.Recalculator? && wk.cluster in b && a[wk.cluster] <= b[wk.cluster]
    ensures Grounded(b, wk)
  {
    if wk.recalc.StatusWriting? {
      var j :| 0 <= j < |a[wk.cluster]|
        && wk.recalc.active == IsActive(a[wk.cluster][j].advert.timestamp, wk.recalc.decided);
      assert b[wk.cluster][j] == a[wk.cluster][j];
    }
  }

  lemma DecidedSnoc(h: seq<Version>, v: Version, j: int)
    requires AllDecided(h)
    requires v.origin.StatusSet? ==>
      0 <= j <= |h| && v.advert.active == IsActive((h + [v])[j].advert.timestamp, v.origin.decided)
    ensures AllDecided(h + [v])
  {
    forall i | 0 <= i < |h + [v]| ensures Decided(h + [v], i) {
      if i < |h| && h[i].origin.StatusSet? {
        assert Decided(h, i);
        var k :| 0 <= k <= i && h[i].advert.active == IsActive(h[k].advert.timestamp, h[i].origin.decided);
        assert (h + [v])[k] == h[k];
      }
    }
  }

  /** Only a status write appends a status version. */
  lemma OthersSetNoStatus(s: State, e: Event, c: ClusterId)
    requires c in Next(s, e).clusters && !e.StatusCommit?
    ensures c in s.clusters ==>
      Next(s, e).clusters[c] == s.clusters[c]
      || (exists v :: Next(s, e).clusters[c] == s.clusters[c] + [v] && !v.origin.StatusSet?)
    ensures c !in s.clusters ==> exists v :: Next(s, e).clusters[c] == [v] && !v.origin.StatusSet?
  {
    if c !in s.clusters {
      OneNewVersion(s, e, c);
      var v := Next(s, e).clusters[c][0];
      assert Next(s, e).clusters[c] == [v];
    }
  }

  lemma StatusCommitDecided(s: State, w: nat, c: ClusterId)
    requires StatusInv(s) && c in DoStatusCommit(s, w).clusters
    ensures AllDecided(DoStatusCommit(s, w).clusters[c])
  {
    var s' := DoStatusCommit(s, w);
    assert c in s.clusters;
    if s'.clusters[c] != s.clusters[c] {
      var wk := s.workers[w];
      assert Grounded(s.clusters, wk);
      var h := s.clusters[c];
      var v := Version(Last(h).advert.(active := wk.recalc.active), StatusSet(wk.recalc.decided));
      var j :| 0 <= j < |h| && wk.recalc.active == IsActive(h[j].advert.timestamp, wk.recalc.decided);
      assert s'.clusters[c] == h + [v] && (h + [v])[j] == h[j];
      DecidedSnoc(h, v, j);
    }
  }

  lemma NextDecided(s: State, e: Event, c: ClusterId)
    requires StatusInv(s) && c in Next(s, e).clusters
    ensures AllDecided(Next(s, e).clusters[c])
  {
    if e.StatusCommit? {
      StatusCommitDecided(s, e.w, c);
    } else {
      OthersSetNoStatus(s, e, c);
      if c in s.clusters && Next(s, e).clusters[c] != s.clusters[c] {
        var v :| Next(s, e).clusters[c] == s.clusters[c] + [v] && !v.origin.StatusSet?;
        DecidedSnoc(s.clusters[c], v, 0);
      } else if c !in s.clusters {
        var v :| Next(s, e).clusters[c] == [v] && !v.origin.StatusSet?;
      }
    }
  }

  lemma OwnGrounded(s: State, e: Event, w: nat)
    requires StatusInv(s) && w < |s.workers| && s.workers[w].Recalculator? && Actor(e) == Some(w)
    ensures w < |Next(s, e).workers| && Grounded(Next(s, e).clusters, Next(s, e).workers[w])
  {
    assert Grounded(s.clusters, s.workers[w]);
    match e
    case RecalcCommit(_, ok, test) => DecisionGrounded(s, w, ok, test);
    case StatusCommit(_) => StatusCommitGrounded(s, w);
    case Abort(_) => assert Next(s, e) == DoAbort(s, w);
    case _ =>
  }

  lemma DecisionGrounded(s: State, w: nat, ok: bool, test: StaleTest)
    requires StatusInv(s) && w < |s.workers| && s.workers[w].Recalculator?
    ensures w < |DoRecalcCommit(s, w, ok, test).workers|
    ensures Grounded(DoRecalcCommit(s, w, ok, test).clusters, DoRecalcCommit(s, w, ok, test).workers[w])
  {
    var wk := s.workers[w];
    assert Grounded(s.clusters, wk);
    var s' := DoRecalcCommit(s, w, ok, test);
    if s' != s {
      var h, h' := s.clusters[wk.cluster], s'.clusters[wk.cluster];
      assert h <= h' && h'[wk.recalc.base] == h[wk.recalc.base];
      assert s'.workers[w].recalc.active == IsActive(h'[wk.recalc.base].advert.timestamp, test);
    }
  }

  lemma StatusCommitGrounded(s: State, w: nat)
    requires StatusInv(s) && w < |s.workers| && s.workers[w].Recalculator?
    ensures w < |DoStatusCommit(s, w).workers|
    ensures Grounded(DoStatusCommit(s, w).clusters, DoStatusCommit(s, w).workers[w])
  {
    var wk := s.workers[w];
    assert Grounded(s.clusters, wk);
    var s' := DoStatusCommit(s, w);
    if s' != s && s'.workers[w].recalc.StatusWriting? {
      assert s.clusters[wk.cluster] <= s'.clusters[wk.cluster];
      GroundedGrows(s.clusters, s'.clusters, wk);
    }
  }

  lemma NewGrounded(s: State, e: Event, w: nat)
    requires w == |s.workers| < |Next(s, e).workers|
    ensures Grounded(Next(s, e).clusters, Next(s, e).workers[w])
  {
    if e.RecalcBegin? {
      var wk := Next(s, e).workers[w];
      assert wk.recalc.copy.timestamp == s.clusters[e.cluster][e.ver].advert.timestamp;
    }
  }

  lemma NextGrounded(s: State, e: Event, w: nat)
    requires StatusInv(s) && w < |Next(s, e).workers|
    ensures Grounded(Next(s, e).clusters, Next(s, e).workers[w])
  {
    if w >= |s.workers| {
      AtMostOneNew(s, e);
      NewGrounded(s, e, w);
    } else {
      assert Grounded(s.clusters, s.workers[w]);
      if Actor(e) != Some(w) {
        OthersKeepWorker(s, e, w);
        if s.workers[w].Recalculator? {
          ClustersGrow(s, e, s.workers[w].cluster);
          GroundedGrows(s.clusters, Next(s, e).clusters, s.workers[w]);
        }
      } else if s.workers[w].Recalculator? {
        OwnGrounded(s, e, w);
      } else {
        OwnKindStays(s, e, w);
      }
    }
  }

  lemma AtMostOneNew(s: State, e: Event)
    ensures |s.workers| <= |Next(s, e).workers| <= |s.workers| + 1
  {
  }

  lemma OwnKindStays(s: State, e: Event, w: nat)
    requires w < |s.workers| && !s.workers[w].Recalculator? && Actor(e) == Some(w)
    ensures w < |Next(s, e).workers| && !Next(s, e).workers[w].Recalculator?
  {
    if s.workers[w].Keeper? {
      StepKeepsRequest(s, e, w);
    } else {
      match e
      case PostRead(_, base) => assert Next(s, e) == DoPostRead(s, w, base);
      case PostCommit(_) => assert Next(s, e) == DoPostCommit(s, w);
      case Abort(_) => assert Next(s, e) == DoAbort(s, w);
      case _ =>
    }
  }

  lemma {:induction false} EveryRunDecides(events: seq<Event>)
    ensures StatusInv(Exec(INIT, events))
  {
    if |events| > 0 {
      var before := events[..|events| - 1];
      EveryRunDecides(before);
      forall c | c in Exec(INIT, events).clusters ensures AllDecided(Exec(INIT, events).clusters[c]) {
        NextDecided(Exec(INIT, before), Last(events), c);
      }
      forall w | 0 <= w < |Exec(INIT, events).workers|
        ensures Grounded(Exec(INIT, events).clusters, Exec(INIT, events).workers[w])
      {
        NextGrounded(Exec(INIT, before), Last(events), w);
      }
    }
  }

  lemma ReachableDecides(s: State)
    requires Reachable(s)
    ensures StatusInv(s)
  {
    var events: seq<Event> :| Ran(INIT, events, s);
    assert Exec(INIT, events) == s;
    EveryRunDecides(events);
  }

  // ----- the age of an Active cluster -----

  /** The status write that decided the stored Active flag: the last one, if there was any. */
  lemma {:induction false} ActiveWasDecided(h: seq<Version>) returns (i: nat)
    requires Serial(h) && Last(h).advert.active
    ensures i < |h| && h[i].origin.StatusSet? && h[i].advert.active
    ensures forall k :: i < k < |h| ==> !h[k].origin.StatusSet?
  {
    var n := |h| - 1;
    if h[n].origin.StatusSet? {
      i := n;
    } else {
      assert LedgerStep(h[n - 1], h[n]);
      SerialPrefix(h, n);
      i := ActiveWasDecided(h[..n]);
    }
  }

  /** Agents' clocks do not go back. */
  predicate TimestampsOrdered(h: seq<Version>) {
    forall i, j :: 0 <= i <= j < |h| ==> h[i].advert.timestamp <= h[j].advert.timestamp
  }

  /**
   The last stored status was decided at most a requeue interval and `lag` before now, with at
   most the given threshold.
   */
  predicate OnTime(h: seq<Version>, now: int, threshold: int, lag: nat) {
    forall i :: 0 <= i < |h| && h[i].origin.StatusSet? && (forall k :: i < k < |h| ==> !h[k].origin.StatusSet?) ==>
      now - h[i].origin.decided.now <= REQUEUE + lag && h[i].origin.decided.Threshold() <= threshold
  }

  /**
   At the moment when version j was the newest, a record marked Active was no older than
   threshold, requeue interval and lag.
   */
  lemma VersionIsFresh(s: State, c: ClusterId, j: nat, moment: int, threshold: int, lag: nat)
    requires Reachable(s) && c in s.clusters && j < |s.clusters[c]| && s.clusters[c][j].advert.active
    requires TimestampsOrdered(s.clusters[c]) && OnTime(s.clusters[c][..j + 1], moment, threshold, lag)
    ensures moment - s.clusters[c][j].advert.timestamp <= threshold + REQUEUE + lag
  {
    EveryHistoryIsSerial(s, c);
    ReachableDecides(s);
    var h := s.clusters[c];
    SerialPrefix(h, j + 1);
    var i := ActiveWasDecided(h[..j + 1]);
    assert Decided(h, i);
  }

  /** A cluster marked Active is never older than the threshold and the requeue interval together. */
  lemma ActiveIsFresh(s: State, c: ClusterId, now: int, threshold: int, lag: nat)
    requires Reachable(s) && Exists(s, c) && Last(s.clusters[c]).advert.active
    requires TimestampsOrdered(s.clusters[c]) && OnTime(s.clusters[c], now, threshold, lag)
    ensures now - Last(s.clusters[c]).advert.timestamp <= threshold + REQUEUE + lag
  {
    EveryHistoryIsSerial(s, c);
    ReachableDecides(s);
    var i := ActiveWasDecided(s.clusters[c]);
    assert Decided(s.clusters[c], i);
  }

  /** The candidate shows version j of its cluster, which was the newest at that moment. */
  predicate Shows(s: State, p: Candidate, j: nat, moment: int, threshold: int, lag: nat) {
    && p.id in s.clusters && j < |s.clusters[p.id]|
    && p == CandidateOf(p.id, s.clusters[p.id][j].advert) && OnTime(s.clusters[p.id][..j + 1], moment, threshold, lag)
  }

  /** A list from a cache at most `age` seconds old. */
  ghost predicate CachedView(s: State, view: seq<Candidate>, now: int, age: nat, threshold: int, lag: nat) {
    forall p :: p in view ==> exists j: nat, t: int :: now - age <= t && Shows(s, p, j, t, threshold, lag)
  }

  /** Nor, but for the age of the cached list, is any provider the engine selects. */
  lemma SelectedIsFresh(s: State, view: seq<Candidate>, q: Query, now: int, age: nat,
                         threshold: int, lag: nat)
    requires Reachable(s) && Choice(view, q).Some? && CachedView(s, view, now, age, threshold, lag)
    requires forall c :: c in s.clusters ==> TimestampsOrdered(s.clusters[c])
    ensures Choice(view, q).value < |view|
    ensures var c := view[Choice(view, q).value].id;
      Exists(s, c) && now - Last(s.clusters[c]).advert.timestamp <= threshold + REQUEUE + lag + age
  {
    ChoiceIsBest(view, q);
    var p := view[Choice(view, q).value];
    assert p in view;
    var j: nat, t: int :| now - age <= t && Shows(s, p, j, t, threshold, lag);
    VersionIsFresh(s, p.id, j, t, threshold, lag);
  }
}
