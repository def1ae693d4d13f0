/**
 The scoring of a submitted questionnaire: each chosen option's weight is added
 to the total score and to the sub-score of its question's area, starting
 from zero for the total and for all four areas.
 */
module Scoring {
  import opened Catalog

  /** The per-area sub-scores (the profiler's `details` dictionary). */
  datatype Breakdown = Breakdown(capacity: int, knowledge: int, horizon: int, tolerance: int) {

    /** The sub-score of area `a`. */
    function Get(a: Area): int
    {
      match a
      case FinancialCapacity => capacity
      case Knowledge => knowledge
      case TimeHorizon => horizon
      case PsychologicalTolerance => tolerance
    }

    /** `details[a] += w`: only area `a` changes, by `w`. */
    function Add(a: Area, w: int): (b: Breakdown)
    {
      Breakdown(
        capacity + (if a == FinancialCapacity then w else 0),
        knowledge + (if a == Knowledge then w else 0),
        horizon + (if a == TimeHorizon then w else 0),
        tolerance + (if a == PsychologicalTolerance then w else 0))
    }

    /** The sum of the four sub-scores. */
    function Sum(): int
    {
      capacity + knowledge + horizon + tolerance
    }
  }

  /** Every area starts at 0. */
  const Zero: Breakdown := Breakdown(0, 0, 0, 0)

  /** A scored answer: the area of its question and the weight of the chosen option. */
  datatype Pick = Pick(area: Area, weight: int)

  /** The scored answers of a questionnaire, question by question. */
  function Picks(qs: seq<Question>, answers: seq<nat>): (ps: seq<Pick>)
    requires ValidAnswers(qs, answers)
    ensures |ps| == |qs|
    ensures forall i :: 0 <= i < |qs| ==> ps[i] == Pick(qs[i].area, Weight(qs[i], answers[i]))
  {
    seq(|qs|, i requires 0 <= i < |qs| => Pick(qs[i].area, Weight(qs[i], answers[i])))
  }

  /** The breakdown after the scoring loop has added the scored answers `ps`. */
  function Details(ps: seq<Pick>): Breakdown
    decreases |ps|
  {
    if |ps| == 0 then Zero
    else Details(ps[..|ps| - 1]).Add(ps[|ps| - 1].area, ps[|ps| - 1].weight)
  }

  /** The total score after the scoring loop has added the scored answers `ps`. */
  function Total(ps: seq<Pick>): int
    decreases |ps|
  {
    if |ps| == 0 then 0 else Total(ps[..|ps| - 1]) + ps[|ps| - 1].weight
  }

  /** Reference definition: the sum of the weights of the answers tagged with area `a`. */
  function AreaScore(ps: seq<Pick>, a: Area): int
    decreases |ps|
  {
    if |ps| == 0 then 0
    else (if ps[0].area == a then ps[0].weight else 0) + AreaScore(ps[1..], a)
  }

  /** The reference sum can be split off at the last answer. */
  lemma {:induction false} AreaScoreLast(ps: seq<Pick>, a: Area)
    requires |ps| > 0
    ensures var n := |ps| - 1;
      AreaScore(ps, a) == AreaScore(ps[..n], a) + (if ps[n].area == a then ps[n].weight else 0)
    decreases |ps|
  {
    var n := |ps| - 1;
    if n > 0 {
      AreaScoreLast(ps[1..], a);
      assert ps[1..][..n - 1] == ps[..n][1..];
    }
  }

  /** Each area's entry of the breakdown is the sum of the weights of that area's answers. */
  lemma {:induction false} DetailsAreAreaScores(ps: seq<Pick>, a: Area)
    ensures Details(ps).Get(a) == AreaScore(ps, a)
    decreases |ps|
  {
    if |ps| > 0 {
      DetailsAreAreaScores(ps[..|ps| - 1], a);
      AreaScoreLast(ps, a);
    }
  }

  /** Every weight goes to the total and to one area, so the total is the sum of the four areas. */
  lemma {:induction false} TotalIsSumOfDetails(ps: seq<Pick>)
    ensures Total(ps) == Details(ps).Sum()
    decreases |ps|
  {
    if |ps| > 0 {
      TotalIsSumOfDetails(ps[..|ps| - 1]);
    }
  }

  /** Each scored answer belongs to its question's area and carries one of its weights. */
  predicate Fits(ps: seq<Pick>, qs: seq<Question>)
  {
    && |ps| == |qs|
    && forall i :: 0 <= i < |qs| ==>
      && |qs[i].options| > 0
      && ps[i].area == qs[i].area
      && MinWeight(qs[i].options) <= ps[i].weight <= MaxWeight(qs[i].options)
  }

  /** The scored answers of a valid answer sequence fit the questionnaire. */
  lemma PicksFit(qs: seq<Question>, answers: seq<nat>)
    requires ValidAnswers(qs, answers)
    ensures Fits(Picks(qs, answers), qs)
  {
    var ps := Picks(qs, answers);
    forall i | 0 <= i < |qs|
      ensures MinWeight(qs[i].options) <= ps[i].weight <= MaxWeight(qs[i].options)
    {
      assert ps[i].weight == qs[i].options[answers[i]].weight;
    }
  }

  /** Each area's score lies between the lowest and the highest weights its questions allow. */
  lemma {:induction false} DetailsWithinAreaRange(ps: seq<Pick>, qs: seq<Question>, a: Area)
    requires Fits(ps, qs)
    ensures WellFormed(qs)
    ensures AreaMin(qs, a) <= Details(ps).Get(a) <= AreaMax(qs, a)
    decreases |qs|
  {
    if |qs| > 0 {
      var n := |qs| - 1;
      assert Fits(ps[..n], qs[..n]);
      DetailsWithinAreaRange(ps[..n], qs[..n], a);
    }
  }

  /**
   For every valid answer sequence the total lies in 0..100, equals the sum of
   the sub-scores, and each sub-score lies between 0 and its area's
   normalisation maximum (30/20/20/30).
   */
  lemma ScoreRange(answers: seq<nat>)
    requires ValidAnswers(Questionnaire, answers)
    ensures var ps := Picks(Questionnaire, answers);
      && Total(ps) == Details(ps).Sum()
      && 0 <= Total(ps) <= MaxTotal
      && forall i :: 0 <= i < |AreaOrder| ==> 0 <= Details(ps).Get(AreaOrder[i]) <= MaxScores[i]
  {
    var ps := Picks(Questionnaire, answers);
    TotalIsSumOfDetails(ps);
    PicksFit(Questionnaire, answers);
    CatalogMaxima();
    forall a: Area ensures AreaMin(Questionnaire, a) <= Details(ps).Get(a) <= AreaMax(Questionnaire, a) {
      DetailsWithinAreaRange(ps, Questionnaire, a);
    }
    assert forall i :: 0 <= i < |AreaOrder| ==> AreaOrder[i] == [FinancialCapacity, Knowledge, TimeHorizon, PsychologicalTolerance][i];
  }

  /** The area layout of the catalog: two financial-capacity questions, then one per other area. */
  predicate CatalogLayout(ps: seq<Pick>)
  {
    && |ps| == 5
    && ps[0].area == FinancialCapacity && ps[1].area == FinancialCapacity
    && ps[2].area == Knowledge && ps[3].area == TimeHorizon && ps[4].area == PsychologicalTolerance
  }

  /** One step of the scoring loop: the first `k` answers extend the first `k - 1`. */
  lemma DetailsSnoc(ps: seq<Pick>, k: nat)
    requires 0 < k <= |ps|
    ensures Details(ps[..k]) == Details(ps[..k - 1]).Add(ps[k - 1].area, ps[k - 1].weight)
  {
    assert ps[..k][..k - 1] == ps[..k - 1];
  }

  /** Closed form of the scoring for the catalog's layout. */
  lemma LayoutDetails(ps: seq<Pick>)
    requires CatalogLayout(ps)
    ensures Details(ps) == Breakdown(ps[0].weight + ps[1].weight, ps[2].weight, ps[3].weight, ps[4].weight)
  {
    var w := Breakdown(ps[0].weight + ps[1].weight, 0, 0, 0);
    assert Details(ps[..2]) == w by {
      DetailsSnoc(ps, 1);
      DetailsSnoc(ps, 2);
      assert ps[..0] == [];
    }
    assert Details(ps[..3]) == w.(knowledge := ps[2].weight) by {
      DetailsSnoc(ps, 3);
    }
    assert Details(ps[..4]) == w.(knowledge := ps[2].weight, horizon := ps[3].weight) by {
      DetailsSnoc(ps, 4);
    }
    DetailsSnoc(ps, 5);
    assert ps[..5] == ps;
  }

  /**
   Closed form of the scoring for the catalog: the two A questions feed the
   financial capacity, B1 the knowledge, C1 the horizon, D1 the tolerance.
   */
  lemma CatalogDetails(answers: seq<nat>)
    requires ValidAnswers(Questionnaire, answers)
    ensures var q := Questionnaire;
      Details(Picks(q, answers)) == Breakdown(
        Weight(q[0], answers[0]) + Weight(q[1], answers[1]),
        Weight(q[2], answers[2]), Weight(q[3], answers[3]), Weight(q[4], answers[4]))
  {
    LayoutDetails(Picks(Questionnaire, answers));
  }

  /** The per-area maxima are reached: the last option of every question scores 30/20/20/30 = 100. */
  lemma HighestAnswers()
    ensures ValidAnswers(Questionnaire, [2, 2, 2, 2, 2])
    ensures Details(Picks(Questionnaire, [2, 2, 2, 2, 2])) == Breakdown(30, 20, 20, 30)
    ensures Total(Picks(Questionnaire, [2, 2, 2, 2, 2])) == MaxTotal
  {
    CatalogDetails([2, 2, 2, 2, 2]);
    TotalIsSumOfDetails(Picks(Questionnaire, [2, 2, 2, 2, 2]));
  }

  /**
   The scoring loop of the form: visits the questions in order and adds each
   chosen weight to the total and to its area's sub-score. On the catalog the
   total lies in 0..100 and each area within its normalisation maximum.
   */
  method ScoreAnswers(qs: seq<Question>, answers: seq<nat>) returns (total: int, details: Breakdown)
    requires ValidAnswers(qs, answers)
    ensures total == Total(Picks(qs, answers))
    ensures details == Details(Picks(qs, answers))
    ensures forall a :: details.Get(a) == AreaScore(Picks(qs, answers), a)
    ensures total == details.Sum()
    ensures WellFormed(qs) && forall a :: AreaMin(qs, a) <= details.Get(a) <= AreaMax(qs, a)
    ensures qs == Questionnaire ==> 0 <= total <= MaxTotal
  {
    ghost var ps := Picks(qs, answers);
    total := 0;
    details := Zero;
    var i := 0;
    while i < |qs|
      invariant 0 <= i <= |qs|
      invariant total == Total(ps[..i])
      invariant details == Details(ps[..i])
    {
      var q := qs[i];
      var w := q.options[answers[i]].weight;
      total := total + w;
      details := details.Add(q.area, w);
      assert ps[..i + 1][..i] == ps[..i];
      i := i + 1;
    }
    assert ps[..i] == ps;
    PicksFit(qs, answers);
    forall a: Area ensures details.Get(a) == AreaScore(ps, a) && AreaMin(qs, a) <= details.Get(a) <= AreaMax(qs, a) {
      DetailsAreAreaScores(ps, a);
      DetailsWithinAreaRange(ps, qs, a);
    }
    TotalIsSumOfDetails(ps);
    if qs == Questionnaire {
      ScoreRange(answers);
    }
  }
}
