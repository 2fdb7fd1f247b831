/**
 What the engine's choice means in integers, without real scores: a comparison of weighted
 remaining fractions, multiplied out.
 */
module Merits {
  import opened Decision

  /** Allocatable CPU times memory: the common denominator of the two headroom fractions. */
  function Size(c: Candidate): int {
    c.allocatable.cpu * c.allocatable.memory
  }

  /** Twenty sizes times the score without its bonus: 1 plus half the headroom fractions, less a tenth with cost. */
  function Merit(c: Candidate, q: Query): int {
    (if c.hasCost then 9 else 10)
    * (2 * c.allocatable.cpu * c.allocatable.memory
       + (c.available.cpu - q.request.cpu) * c.allocatable.memory
       + (c.available.memory - q.request.memory) * c.allocatable.cpu)
  }

  /** What can be chosen has positive allocatable amounts. */
  predicate AllPositive(list: seq<Candidate>, q: Query) {
    forall c :: c in list && Feasible(c, q) ==> c.allocatable.cpu > 0 && c.allocatable.memory > 0
  }

  /** Feasible, of the highest merit per size, and the earliest of equals; multiplied out. */
  predicate TopMerit(list: seq<Candidate>, i: nat, q: Query)
    requires i < |list|
  {
    && Feasible(list[i], q)
    && (forall j :: 0 <= j < |list| && Feasible(list[j], q) ==>
          Merit(list[i], q) * Size(list[j]) >= Merit(list[j], q) * Size(list[i]))
    && (forall j :: 0 <= j < i && Feasible(list[j], q) ==>
          Merit(list[i], q) * Size(list[j]) > Merit(list[j], q) * Size(list[i]))
  }

  /** The real quotient times its denominator is the numerator. */
  lemma RatioTimes(a: int, d: int)
    requires a >= 0 && d > 0
    ensures Ratio(a, d).Finite? && Ratio(a, d).value * d as real == a as real
  {
  }

  lemma ScaledSum(x: real, y: real, a: real, b: real, d: real, e: real)
    requires x * d == a && y * e == b
    ensures (x + y) * (d * e) == a * e + b * d
  {
    assert x * (d * e) == a * e;
    assert y * (d * e) == b * d;
    assert (x + y) * (d * e) == x * (d * e) + y * (d * e);
  }

  /** (1 + x / 2) times twenty times a size is twenty sizes and ten times x sizes. */
  lemma PlainTimes(x: real, size: real, t: real)
    requires x * size == t
    ensures (1.0 + x * 0.5) * (20.0 * size) == 20.0 * size + 10.0 * t
  {
    assert (1.0 + x * 0.5) * (20.0 * size) == 20.0 * size + 10.0 * (x * size);
  }

  lemma Product(a: int, b: int)
    ensures (a * b) as real == a as real * b as real
  {
  }

  lemma Scaled(v: real, size: real, t: real, factor: real)
    requires v * size == t
    ensures (v * factor) * size == t * factor
  {
    assert (v * factor) * size == (v * size) * factor;
  }

  lemma PlainScore(c: Candidate, q: Query) returns (x: real)
    requires Eligible(c, q) && Scorable(c)
    ensures CalculateScore(c, q)
         == Finite((1.0 + x * 0.5) * (if c.hasCost then 0.9 else 1.0) + q.priority as real * 0.01)
    ensures x * (c.allocatable.cpu as real * c.allocatable.memory as real)
         == (c.available.cpu - q.request.cpu) as real * c.allocatable.memory as real
          + (c.available.memory - q.request.memory) as real * c.allocatable.cpu as real
  {
    var a, b := c.available.cpu - q.request.cpu, c.available.memory - q.request.memory;
    var d, e := c.allocatable.cpu, c.allocatable.memory;
    RatioTimes(a, d);
    RatioTimes(b, e);
    x := Ratio(a, d).value + Ratio(b, e).value;
    ScaledSum(Ratio(a, d).value, Ratio(b, e).value, a as real, b as real, d as real, e as real);
  }

  lemma MeritAsReal(c: Candidate, q: Query)
    ensures var size := c.allocatable.cpu as real * c.allocatable.memory as real;
      && (20 * Size(c)) as real == 20.0 * size
      && Merit(c, q) as real == (20.0 * size
          + 10.0 * ((c.available.cpu - q.request.cpu) as real * c.allocatable.memory as real
                    + (c.available.memory - q.request.memory) as real * c.allocatable.cpu as real))
         * (if c.hasCost then 0.9 else 1.0)
  {
    var a, b := c.available.cpu - q.request.cpu, c.available.memory - q.request.memory;
    var d, e := c.allocatable.cpu, c.allocatable.memory;
    Product(d, e);
    Product(a, e);
    Product(b, d);
    var sum := 2 * d * e + a * e + b * d;
    assert 2 * d * e == 2 * (d * e);
    assert Merit(c, q) == (if c.hasCost then 9 else 10) * sum;
  }

  lemma ScoreIsMerit(c: Candidate, q: Query)
    requires Eligible(c, q) && Scorable(c)
    ensures CalculateScore(c, q).Finite? && Size(c) > 0
    ensures (CalculateScore(c, q).value - q.priority as real * 0.01) * (20 * Size(c)) as real == Merit(c, q) as real
  {
    var x := PlainScore(c, q);
    MeritAsReal(c, q);
    var size := c.allocatable.cpu as real * c.allocatable.memory as real;
    PlainTimes(x, size, x * size);
    Scaled(1.0 + x * 0.5, 20.0 * size, 20.0 * size + 10.0 * (x * size), if c.hasCost then 0.9 else 1.0);
  }

  /** Comparing two quotients over positive denominators. */
  lemma CrossCompare(v: real, w: real, m: int, n: int, d: int, e: int)
    requires d > 0 && e > 0
    requires v * d as real == m as real && w * e as real == n as real
    ensures v > w <==> m * e > n * d
  {
    var x, y := d as real, e as real;
    assert (m * e) as real == v * x * y && (n * d) as real == w * y * x;
    assert v * x * y - w * y * x == (v - w) * (x * y);
    assert x * y > 0.0;
    if v > w {
      assert (v - w) * (x * y) > 0.0;
    } else {
      assert (v - w) * (x * y) <= 0.0;
    }
  }

  lemma FiniteCompare(a: Score, b: Score, bonus: real, m: int, n: int, d: int, e: int)
    requires a.Finite? && b.Finite? && d > 0 && e > 0
    requires (a.value - bonus) * (20 * d) as real == m as real && (b.value - bonus) * (20 * e) as real == n as real
    ensures Beats(a, b) <==> m * e > n * d
  {
    CrossCompare(a.value - bonus, b.value - bonus, m, n, 20 * d, 20 * e);
    Twenty(m, e, n, d);
  }

  /** The score, without its bonus and times twenty sizes, is the merit; m and d stand for the two. */
  predicate Weighs(score: Score, bonus: real, m: int, d: int) {
    score.Finite? && d > 0 && (score.value - bonus) * (20 * d) as real == m as real
  }

  lemma WeighsByMerit(c: Candidate, q: Query) returns (m: int, d: int)
    requires Eligible(c, q) && Scorable(c)
    ensures Weighs(CalculateScore(c, q), q.priority as real * 0.01, m, d)
    ensures m == Merit(c, q) && d == Size(c)
  {
    ScoreIsMerit(c, q);
    m, d := Merit(c, q), Size(c);
  }

  lemma WeighedCompare(a: Score, b: Score, bonus: real, m: int, n: int, d: int, e: int)
    requires Weighs(a, bonus, m, d) && Weighs(b, bonus, n, e)
    ensures Beats(a, b) <==> m * e > n * d
  {
    FiniteCompare(a, b, bonus, m, n, d, e);
  }

  lemma BeatsByMerit(c: Candidate, o: Candidate, q: Query)
    requires Eligible(c, q) && Scorable(c) && Eligible(o, q) && Scorable(o)
    ensures Beats(CalculateScore(c, q), CalculateScore(o, q)) <==> Merit(c, q) * Size(o) > Merit(o, q) * Size(c)
  {
    var m, d := WeighsByMerit(c, q);
    var n, e := WeighsByMerit(o, q);
    WeighedCompare(CalculateScore(c, q), CalculateScore(o, q), q.priority as real * 0.01, m, n, d, e);
  }

  lemma Twenty(m: int, e: int, n: int, d: int)
    ensures m * (20 * e) > n * (20 * d) <==> m * e > n * d
  {
    assert m * (20 * e) == 20 * (m * e) && n * (20 * d) == 20 * (n * d);
  }

  /**
   The engine in integers. Over positive allocatable amounts and above priority -190 it chooses
   the feasible cluster of the highest merit per size, the earliest of equals, and fails exactly
   when none is feasible.
   */
  lemma ChoiceByMerit(list: seq<Candidate>, q: Query)
    requires q.priority > -190
    requires AllPositive(list, q)
    ensures Choice(list, q).None? <==> forall c :: c in list ==> !Feasible(c, q)
    ensures Choice(list, q).Some? ==> Choice(list, q).value < |list| && TopMerit(list, Choice(list, q).value, q)
  {
    assert forall c :: Feasible(c, q) <==> Eligible(c, q);
    ScorableSelectionComplete(list, q);
    ChoiceIsBest(list, q);
    if Choice(list, q).Some? {
      var i := Choice(list, q).value;
      forall j | 0 <= j < |list| && Feasible(list[j], q)
        ensures Merit(list[i], q) * Size(list[j]) >= Merit(list[j], q) * Size(list[i])
        ensures j < i ==> Merit(list[i], q) * Size(list[j]) > Merit(list[j], q) * Size(list[i])
      {
        assert list[j] in list && list[i] in list;
        BeatsByMerit(list[j], list[i], q);
        BeatsByMerit(list[i], list[j], q);
        if j < i {
          ScoreFloor(list[j], q);
        }
      }
    }
  }

  /**
   Without cost information the bonus and the two sizes cancel: the winner w has the most headroom
   after the grant, as a sum of fractions of what is allocatable, here multiplied out.
   */
  lemma WinnerHasMostHeadroomInIntegers(list: seq<Candidate>, q: Query, c: Candidate)
    requires Choice(list, q).Some? && Choice(list, q).value < |list|
    requires c in list && Feasible(c, q) && !c.hasCost && c.allocatable.cpu > 0 && c.allocatable.memory > 0
    requires var w := list[Choice(list, q).value];
      !w.hasCost && w.allocatable.cpu > 0 && w.allocatable.memory > 0
    ensures var w := list[Choice(list, q).value];
      ((w.available.cpu - q.request.cpu) * w.allocatable.memory
       + (w.available.memory - q.request.memory) * w.allocatable.cpu) * (c.allocatable.cpu * c.allocatable.memory)
      >= ((c.available.cpu - q.request.cpu) * c.allocatable.memory
          + (c.available.memory - q.request.memory) * c.allocatable.cpu) * (w.allocatable.cpu * w.allocatable.memory)
  {
    ChoiceIsBest(list, q);
    var w := list[Choice(list, q).value];
    var j :| 0 <= j < |list| && list[j] == c;
    assert Eligible(list[j], q) && !Beats(CalculateScore(list[j], q), CalculateScore(w, q));
    BeatsByMerit(c, w, q);
    TenTwice((w.available.cpu - q.request.cpu) * w.allocatable.memory
             + (w.available.memory - q.request.memory) * w.allocatable.cpu, Size(w),
             (c.available.cpu - q.request.cpu) * c.allocatable.memory
             + (c.available.memory - q.request.memory) * c.allocatable.cpu, Size(c));
    MeritParts(w, q);
    MeritParts(c, q);
  }

  lemma MeritParts(c: Candidate, q: Query)
    ensures Merit(c, q) == (if c.hasCost then 9 else 10)
      * (2 * Size(c) + ((c.available.cpu - q.request.cpu) * c.allocatable.memory
                        + (c.available.memory - q.request.memory) * c.allocatable.cpu))
  {
    assert 2 * c.allocatable.cpu * c.allocatable.memory == 2 * Size(c);
  }

  lemma TenTwice(m: int, d: int, n: int, e: int)
    ensures (10 * (2 * d + m)) * e >= (10 * (2 * e + n)) * d <==> m * e >= n * d
  {
    assert (10 * (2 * d + m)) * e == 20 * (d * e) + 10 * (m * e);
    assert (10 * (2 * e + n)) * d == 20 * (d * e) + 10 * (n * d);
  }
}
