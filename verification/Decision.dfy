/**
 The decision engine: a filtered arg-max over the advertised clusters.
 Scores are real numbers, +Inf or NaN; IEEE rounding is not modelled.
 */
module Decision {
  import opened Quantities

  datatype Candidate = Candidate(
    id: ClusterId, allocatable: Amount, available: Amount, hasCost: bool, active: bool)

  datatype Query = Query(requester: ClusterId, request: Amount, priority: int)

  /** A float64 score: a number, +Inf or NaN. Only the rounding of numbers is idealised. */
  datatype Score = Finite(value: real) | Infinite | Undefined

  const START_SCORE := Finite(-1.0)

  /** The Go comparison `a > b`; NaN compares with nothing. */
  predicate Beats(a: Score, b: Score) {
    (a.Infinite? && b.Finite?) || (a.Finite? && b.Finite? && a.value > b.value)
  }

  /** The three filters of the selection loop. */
  predicate Eligible(c: Candidate, q: Query) {
    && c.id != q.requester
    && c.active
    && HasEnoughResources(c, q.request)
  }

  predicate HasEnoughResources(c: Candidate, request: Amount) {
    request.AtMost(c.available)
  }

  /** Go's division, of a numerator that is not negative. */
  function Ratio(numerator: int, denominator: int): Score
    requires numerator >= 0
  {
    if denominator != 0 then Finite(numerator as real / denominator as real)
    else if numerator == 0 then Undefined
    else Infinite
  }

  function Plus(a: Score, b: Score): Score {
    if a.Undefined? || b.Undefined? then Undefined
    else if a.Infinite? || b.Infinite? then Infinite
    else Finite(a.value + b.value)
  }

  /** Fraction of the cluster still free after granting the request, CPU plus memory. */
  function HeadroomFractions(c: Candidate, request: Amount): Score
    requires HasEnoughResources(c, request)
  {
    Plus(Ratio(c.available.cpu - request.cpu, c.allocatable.cpu),
         Ratio(c.available.memory - request.memory, c.allocatable.memory))
  }

  /** 1 - (1 - ratio) / 2, which keeps +Inf and NaN. */
  function Half(ratio: Score): Score {
    if ratio.Finite? then Finite(1.0 - (1.0 - ratio.value) * 0.5) else ratio
  }

  function CalculateScore(c: Candidate, q: Query): Score
    requires HasEnoughResources(c, q.request)
  {
    var score := Plus(Half(Ratio(c.available.cpu - q.request.cpu, c.allocatable.cpu)),
                      Half(Ratio(c.available.memory - q.request.memory, c.allocatable.memory)));
    if score.Finite?
    then Finite((if c.hasCost then score.value * 0.9 else score.value) + q.priority as real * 0.01)
    else score
  }

  /** Best index and score over the first n candidates. */
  function Scan(list: seq<Candidate>, n: nat, q: Query): (Option<nat>, Score)
    requires n <= |list|
  {
    if n == 0 then (None, START_SCORE)
    else
      var (best, score) := Scan(list, n - 1, q);
      if Eligible(list[n - 1], q) && Beats(CalculateScore(list[n - 1], q), score)
      then (Some(n - 1), CalculateScore(list[n - 1], q))
      else (best, score)
  }

  function Choice(list: seq<Candidate>, q: Query): Option<nat> {
    Scan(list, |list|, q).0
  }

  /** The three filters, spelled out. */
  predicate Feasible(c: Candidate, q: Query) {
    && c.id != q.requester && c.active
    && q.request.cpu <= c.available.cpu && q.request.memory <= c.available.memory
  }

  /** The choice is the reference one; what that is in integers is said in Merits.ChoiceByMerit. */
  method SelectBestCluster(list: seq<Candidate>, q: Query) returns (best: Option<nat>)
    ensures best == Choice(list, q)
    ensures best.Some? ==> best.value < |list| && Feasible(list[best.value], q)
  {
    best := None;
    var bestScore := START_SCORE;
    for i := 0 to |list|
      invariant (best, bestScore) == Scan(list, i, q)
    {
      var cluster := list[i];
      if cluster.id == q.requester {
        continue;
      }
      if !cluster.active {
        continue;
      }
      if !HasEnoughResources(cluster, q.request) {
        continue;
      }
      var score := CalculateScore(cluster, q);
      if Beats(score, bestScore) {
        bestScore := score;
        best := Some(i);
      }
    }
    ChoiceIsBest(list, q);
  }

  /** The reference: i is eligible, above the start value, unbeaten, and the earliest such. */
  ghost predicate IsBest(list: seq<Candidate>, i: nat, q: Query) {
    && i < |list|
    && Eligible(list[i], q)
    && Beats(CalculateScore(list[i], q), START_SCORE)
    && (forall j :: 0 <= j < |list| && Eligible(list[j], q) ==>
          !Beats(CalculateScore(list[j], q), CalculateScore(list[i], q)))
    && (forall j :: 0 <= j < i && Eligible(list[j], q) ==>
          Below(CalculateScore(list[j], q), CalculateScore(list[i], q)))
  }

  /** Strictly worse, or not a number. */
  predicate Below(a: Score, b: Score) {
    a.Undefined? || Beats(b, a)
  }

  lemma {:induction false} ScanFindsBest(list: seq<Candidate>, n: nat, q: Query)
    requires n <= |list|
    ensures var (best, score) := Scan(list, n, q);
      && (score == START_SCORE || Beats(score, START_SCORE))
      && (forall j :: 0 <= j < n && Eligible(list[j], q) ==> !Beats(CalculateScore(list[j], q), score))
      && (best.None? ==> score == START_SCORE)
      && (best.Some? ==>
            && best.value < n && Eligible(list[best.value], q)
            && score == CalculateScore(list[best.value], q) && Beats(score, START_SCORE)
            && (forall j :: 0 <= j < best.value && Eligible(list[j], q) ==> Below(CalculateScore(list[j], q), score)))
  {
    if n > 0 {
      ScanFindsBest(list, n - 1, q);
    }
  }

  /**
   The loop returns i exactly when i is the reference answer, and nothing exactly when no
   eligible score beats the start value.
   */
  lemma ChoiceIsBest(list: seq<Candidate>, q: Query)
    ensures forall i: nat :: Choice(list, q) == Some(i) <==> IsBest(list, i, q)
    ensures Choice(list, q).None? <==>
              forall j :: 0 <= j < |list| && Eligible(list[j], q) ==> !Beats(CalculateScore(list[j], q), START_SCORE)
  {
    ScanFindsBest(list, |list|, q);
    forall i: nat | IsBest(list, i, q)
      ensures Choice(list, q) == Some(i)
    {
      if Choice(list, q).Some? {
        var b := Choice(list, q).value;
        assert b < i || i < b || b == i;
      }
    }
  }

  // ----- which score an eligible candidate gets -----

  predicate Scorable(c: Candidate) {
    c.allocatable.Positive()
  }

  /** An exact fit over a zero allocatable amount: 0/0. */
  predicate Unscored(c: Candidate, q: Query) {
    || (c.allocatable.cpu == 0 && c.available.cpu == q.request.cpu)
    || (c.allocatable.memory == 0 && c.available.memory == q.request.memory)
  }

  /** More than a fit over a zero allocatable amount. */
  predicate Unbounded(c: Candidate, q: Query) {
    || (c.allocatable.cpu == 0 && c.available.cpu > q.request.cpu)
    || (c.allocatable.memory == 0 && c.available.memory > q.request.memory)
  }

  lemma ScoreKinds(c: Candidate, q: Query)
    requires Eligible(c, q)
    ensures CalculateScore(c, q).Undefined? <==> Unscored(c, q)
    ensures CalculateScore(c, q).Infinite? <==> Unbounded(c, q) && !Unscored(c, q)
    ensures CalculateScore(c, q).Finite? <==> c.allocatable.cpu != 0 && c.allocatable.memory != 0
  {
  }

  lemma RatioNonNegative(numerator: int, denominator: int)
    requires numerator >= 0 && denominator > 0
    ensures Ratio(numerator, denominator).Finite? && Ratio(numerator, denominator).value >= 0.0
  {
  }

  lemma ScoreFloor(c: Candidate, q: Query)
    requires Eligible(c, q) && Scorable(c)
    ensures CalculateScore(c, q).Finite? && CalculateScore(c, q).value >= 0.9 + q.priority as real * 0.01
  {
    RatioNonNegative(c.available.cpu - q.request.cpu, c.allocatable.cpu);
    RatioNonNegative(c.available.memory - q.request.memory, c.allocatable.memory);
  }

  /** Nothing that can be chosen has a negative allocatable amount. */
  predicate NoneNegative(list: seq<Candidate>, q: Query) {
    forall c :: c in list && Eligible(c, q) ==> ZERO.AtMost(c.allocatable)
  }

  lemma BeatsStart(c: Candidate, q: Query)
    requires Eligible(c, q) && ZERO.AtMost(c.allocatable) && q.priority > -190
    ensures Beats(CalculateScore(c, q), START_SCORE) <==> !Unscored(c, q)
  {
    ScoreKinds(c, q);
    if Scorable(c) {
      ScoreFloor(c, q);
    }
  }

  // ----- when the engine finds a cluster -----

  /**
   Above priority -190 the engine errors exactly when every eligible cluster is an exact fit
   over a zero allocatable amount; in particular when no cluster is eligible.
   */
  lemma SelectionComplete(list: seq<Candidate>, q: Query)
    requires q.priority > -190 && NoneNegative(list, q)
    ensures Choice(list, q).None? <==> forall c :: c in list && Eligible(c, q) ==> Unscored(c, q)
    ensures Choice(list, q).Some? <==> exists c :: c in list && Eligible(c, q) && !Unscored(c, q)
  {
    ChoiceIsBest(list, q);
    forall c | c in list && Eligible(c, q)
      ensures Beats(CalculateScore(c, q), START_SCORE) <==> !Unscored(c, q)
    {
      BeatsStart(c, q);
    }
  }

  /** Where all allocatable amounts are positive, that is exactly when no cluster is eligible. */
  lemma ScorableSelectionComplete(list: seq<Candidate>, q: Query)
    requires q.priority > -190
    requires forall c :: c in list && Eligible(c, q) ==> Scorable(c)
    ensures Choice(list, q).None? <==> forall c :: c in list ==> !Eligible(c, q)
  {
    SelectionComplete(list, q);
  }

  predicate CompleteOn(list: seq<Candidate>, q: Query) {
    Choice(list, q).None? <==> forall c :: c in list && Eligible(c, q) ==> Unscored(c, q)
  }

  /**
   The bound is exact: at a priority that holds for every list if and only if the priority is
   above -190. The witness is an exact fit, over positive amounts, that carries cost information.
   */
  lemma PriorityBoundIsTight(priority: int)
    ensures priority > -190 <==>
      forall list: seq<Candidate>, requester: ClusterId, request: Amount ::
        NoneNegative(list, Query(requester, request, priority)) ==>
          CompleteOn(list, Query(requester, request, priority))
  {
    if priority > -190 {
      forall list: seq<Candidate>, requester: ClusterId, request: Amount
        | NoneNegative(list, Query(requester, request, priority))
        ensures CompleteOn(list, Query(requester, request, priority))
      {
        SelectionComplete(list, Query(requester, request, priority));
      }
    } else {
      var one := Amount(1, 1);
      var q := Query(1, one, priority);
      var tight := Candidate(2, one, one, true, true);
      assert Ratio(0, 1) == Finite(0.0);
      assert Eligible(tight, q) && !Unscored(tight, q);
      assert CalculateScore(tight, q) == Finite(0.9 + priority as real * 0.01);
      ChoiceIsBest([tight], q);
      assert Choice([tight], q).None?;
      assert tight in [tight];
      assert NoneNegative([tight], q) && !CompleteOn([tight], q);
    }
  }

  /** The bonus shifts numbers and leaves +Inf and NaN. */
  function Shifted(score: Score, priorities: int): Score {
    if score.Finite? then Finite(score.value + priorities as real * 0.01) else score
  }

  lemma ScoreShift(c: Candidate, q: Query, priority: int)
    requires Eligible(c, q)
    ensures Eligible(c, q.(priority := priority))
    ensures CalculateScore(c, q.(priority := priority)) == Shifted(CalculateScore(c, q), priority - q.priority)
  {
  }

  /** The bonus is the same for every candidate, so priority never changes which cluster wins. */
  lemma PriorityDoesNotChoose(list: seq<Candidate>, q: Query, priority: int)
    requires q.priority > -190 && priority > -190 && NoneNegative(list, q)
    ensures Choice(list, q) == Choice(list, q.(priority := priority))
  {
    var q' := q.(priority := priority);
    forall c | c in list
      ensures Eligible(c, q') == Eligible(c, q)
      ensures Eligible(c, q) ==> Unscored(c, q') == Unscored(c, q)
      ensures Eligible(c, q) ==> CalculateScore(c, q') == Shifted(CalculateScore(c, q), priority - q.priority)
    {
      if Eligible(c, q) {
        ScoreShift(c, q, priority);
      }
    }
    SelectionComplete(list, q);
    SelectionComplete(list, q');
    ChoiceIsBest(list, q);
    ChoiceIsBest(list, q');
    if Choice(list, q).Some? {
      var i := Choice(list, q).value;
      BeatsStart(list[i], q);
      BeatsStart(list[i], q');
      assert IsBest(list, i, q');
    }
  }

  /** Among clusters without cost information the winner has the most headroom left after the grant. */
  lemma WinnerHasMostHeadroom(list: seq<Candidate>, q: Query)
    requires Choice(list, q).Some?
    ensures var i := Choice(list, q).value;
      && i < |list| && Eligible(list[i], q)
      && (!list[i].hasCost ==> forall c :: c in list && Eligible(c, q) && !c.hasCost ==>
           !Beats(HeadroomFractions(c, q.request), HeadroomFractions(list[i], q.request)))
  {
    ChoiceIsBest(list, q);
    var i := Choice(list, q).value;
    if !list[i].hasCost {
      forall c | c in list && Eligible(c, q) && !c.hasCost
        ensures !Beats(HeadroomFractions(c, q.request), HeadroomFractions(list[i], q.request))
      {
        var j :| 0 <= j < |list| && list[j] == c;
        assert !Beats(CalculateScore(list[j], q), CalculateScore(list[i], q));
      }
    }
  }

  /** Reordering the list changes neither whether there is a winner nor its score. */
  lemma ReorderingKeepsScore(list: seq<Candidate>, list': seq<Candidate>, q: Query)
    requires multiset(list) == multiset(list')
    ensures Scan(list, |list|, q).1 == Scan(list', |list'|, q).1
    ensures Choice(list, q).Some? == Choice(list', q).Some?
  {
    ScanFindsBest(list, |list|, q);
    ScanFindsBest(list', |list'|, q);
    forall c
      ensures c in list <==> c in list'
    {
      assert c in multiset(list) <==> c in multiset(list');
    }
    BestScoreDominates(list, list', q);
    BestScoreDominates(list', list, q);
  }

  lemma BestScoreDominates(list: seq<Candidate>, other: seq<Candidate>, q: Query)
    requires forall c :: c in other ==> c in list
    ensures !Beats(Scan(other, |other|, q).1, Scan(list, |list|, q).1)
  {
    ScanFindsBest(list, |list|, q);
    ScanFindsBest(other, |other|, q);
    if Choice(other, q).Some? {
      var c := other[Choice(other, q).value];
      assert c in other && c in list;
      var j :| 0 <= j < |list| && list[j] == c;
      assert Eligible(list[j], q);
    }
  }

  /**
   An eligible cluster with more than a fit over one zero allocatable amount, and no exact fit over
   another, scores +Inf. Wherever there is one, the winner has a zero allocatable amount.
   */
  lemma InfiniteWins(list: seq<Candidate>, q: Query, c: Candidate)
    requires c in list && Eligible(c, q) && Unbounded(c, q) && !Unscored(c, q)
    ensures CalculateScore(c, q).Infinite?
    ensures Choice(list, q).Some? && Choice(list, q).value < |list|
    ensures var winner := list[Choice(list, q).value];
      Eligible(winner, q) && CalculateScore(winner, q).Infinite? && !Scorable(winner)
  {
    ScoreKinds(c, q);
    ChoiceIsBest(list, q);
    var j :| 0 <= j < |list| && list[j] == c;
    assert Beats(CalculateScore(list[j], q), START_SCORE);
    var i := Choice(list, q).value;
    assert !Beats(CalculateScore(list[j], q), CalculateScore(list[i], q));
  }
}
