/**
 The questionnaire catalog of the risk profiler (`RiskProfiler.QUESTIONNAIRE`):
 five questions, each tagged with one of four areas, each option carrying an
 integer weight; plus the per-area maxima used to normalise the area scores.
 */
module Catalog {

  /** The four areas of the questionnaire, in the key order of the score breakdown. */
  datatype Area = FinancialCapacity | Knowledge | TimeHorizon | PsychologicalTolerance

  /** One answer option: the caption shown to the client and its weight. */
  datatype Choice = Choice(caption: string, weight: int)

  /** A question: its area, its prompt and its options in display order. */
  datatype Question = Question(area: Area, prompt: string, options: seq<Choice>)

  const Questionnaire: seq<Question> := [
    Question(FinancialCapacity, "A1. Stima del tuo Reddito Annuo Lordo (RAL)?",
      [Choice("< 25k €", 5), Choice("25k € - 50k €", 10), Choice("> 50k €", 15)]),
    Question(FinancialCapacity, "A2. Patrimonio investibile che sei disposto a rischiare?",
      [Choice("< 10%", 5), Choice("10% - 30%", 10), Choice("> 30%", 15)]),
    Question(Knowledge, "B1. Quanto è vasta la tua conoscenza di prodotti complessi (es. Derivati)?",
      [Choice("Nessuna/Minima", 5), Choice("Buona conoscenza", 10), Choice("Elevata e uso regolare", 20)]),
    Question(TimeHorizon, "C1. Qual è l'orizzonte temporale principale per i tuoi investimenti?",
      [Choice("< 3 Anni", 5), Choice("3 - 7 Anni", 10), Choice("> 7 Anni", 20)]),
    Question(PsychologicalTolerance, "D1. Come reagiresti a un calo del 25% in pochi mesi?",
      [Choice("Venderesti subito (Panico)", 0), Choice("Manterresti con preoccupazione", 10),
       Choice("Vedresti un'opportunità di acquisto", 30)])
  ]

  /** The areas in the key order of the score dictionary. */
  const AreaOrder: seq<Area> := [FinancialCapacity, Knowledge, TimeHorizon, PsychologicalTolerance]

  /** The normalisation maxima, aligned with `AreaOrder`. */
  const MaxScores: seq<int> := [30, 20, 20, 30]

  /** `RiskProfiler.PUNTEGGIO_MAX`. */
  const MaxTotal: int := 100

  /**
   `answers[i]` is the index of the option chosen for question `i`, and every
   question has one. The form's radio buttons only offer existing options.
   */
  predicate ValidAnswers(qs: seq<Question>, answers: seq<nat>)
  {
    |answers| == |qs| && forall i :: 0 <= i < |qs| ==> answers[i] < |qs[i].options|
  }

  /** Every question offers at least one option. */
  predicate WellFormed(qs: seq<Question>)
  {
    forall i :: 0 <= i < |qs| ==> |qs[i].options| > 0
  }

  /** The weight of option `choice` of question `q`. */
  function Weight(q: Question, choice: nat): int
    requires choice < |q.options|
  {
    q.options[choice].weight
  }

  /** The largest weight among `opts`. */
  function MaxWeight(opts: seq<Choice>): (m: int)
    requires |opts| > 0
    ensures forall i :: 0 <= i < |opts| ==> opts[i].weight <= m
    decreases |opts|
  {
    if |opts| == 1 then opts[0].weight
    else
      var rest := MaxWeight(opts[1..]);
      assert forall i :: 1 <= i < |opts| ==> opts[i] == opts[1..][i - 1];
      if opts[0].weight >= rest then opts[0].weight else rest
  }

  /** The smallest weight among `opts`. */
  function MinWeight(opts: seq<Choice>): (m: int)
    requires |opts| > 0
    ensures forall i :: 0 <= i < |opts| ==> m <= opts[i].weight
    decreases |opts|
  {
    if |opts| == 1 then opts[0].weight
    else
      var rest := MinWeight(opts[1..]);
      assert forall i :: 1 <= i < |opts| ==> opts[i] == opts[1..][i - 1];
      if opts[0].weight <= rest then opts[0].weight else rest
  }

  /** The most question `q` can add to area `a`. */
  function Top(q: Question, a: Area): int
    requires |q.options| > 0
  {
    if q.area == a then MaxWeight(q.options) else 0
  }

  /** The least question `q` can add to area `a`. */
  function Bottom(q: Question, a: Area): int
    requires |q.options| > 0
  {
    if q.area == a then MinWeight(q.options) else 0
  }

  /** The highest score area `a` can reach: the top weight of each of its questions. */
  function AreaMax(qs: seq<Question>, a: Area): int
    requires WellFormed(qs)
    decreases |qs|
  {
    if |qs| == 0 then 0 else AreaMax(qs[..|qs| - 1], a) + Top(qs[|qs| - 1], a)
  }

  /** The lowest score area `a` can reach: the bottom weight of each of its questions. */
  function AreaMin(qs: seq<Question>, a: Area): int
    requires WellFormed(qs)
    decreases |qs|
  {
    if |qs| == 0 then 0 else AreaMin(qs[..|qs| - 1], a) + Bottom(qs[|qs| - 1], a)
  }

  /** The range of the first `k` questions extends the range of the first `k - 1`. */
  lemma AreaRangeSnoc(qs: seq<Question>, a: Area, k: nat)
    requires WellFormed(qs) && 0 < k <= |qs|
    ensures WellFormed(qs[..k]) && WellFormed(qs[..k - 1])
    ensures AreaMax(qs[..k], a) == AreaMax(qs[..k - 1], a) + Top(qs[k - 1], a)
    ensures AreaMin(qs[..k], a) == AreaMin(qs[..k - 1], a) + Bottom(qs[k - 1], a)
  {
    assert qs[..k][..k - 1] == qs[..k - 1];
  }

  /** The range of an area over five questions, question by question. */
  lemma FiveQuestionRange(qs: seq<Question>, a: Area)
    requires WellFormed(qs) && |qs| == 5
    ensures AreaMax(qs, a) == Top(qs[0], a) + Top(qs[1], a) + Top(qs[2], a) + Top(qs[3], a) + Top(qs[4], a)
    ensures AreaMin(qs, a)
      == Bottom(qs[0], a) + Bottom(qs[1], a) + Bottom(qs[2], a) + Bottom(qs[3], a) + Bottom(qs[4], a)
  {
    AreaRangeSnoc(qs, a, 1);
    AreaRangeSnoc(qs, a, 2);
    AreaRangeSnoc(qs, a, 3);
    AreaRangeSnoc(qs, a, 4);
    AreaRangeSnoc(qs, a, 5);
    assert qs[..0] == [] && qs[..5] == qs;
  }

  /** Top and bottom weight of a three-option question whose weights ascend. */
  lemma AscendingThree(opts: seq<Choice>)
    requires |opts| == 3 && opts[0].weight <= opts[1].weight <= opts[2].weight
    ensures MaxWeight(opts) == opts[2].weight && MinWeight(opts) == opts[0].weight
  {
    var tail := opts[1..];
    assert tail[1..] == [opts[2]];
    assert MaxWeight(tail) == opts[2].weight && MinWeight(tail) == opts[1].weight;
  }

  /** The top and bottom weight of each question of the catalog. */
  lemma CatalogWeights()
    ensures WellFormed(Questionnaire)
    ensures MaxWeight(Questionnaire[0].options) == 15 && MinWeight(Questionnaire[0].options) == 5
    ensures MaxWeight(Questionnaire[1].options) == 15 && MinWeight(Questionnaire[1].options) == 5
    ensures MaxWeight(Questionnaire[2].options) == 20 && MinWeight(Questionnaire[2].options) == 5
    ensures MaxWeight(Questionnaire[3].options) == 20 && MinWeight(Questionnaire[3].options) == 5
    ensures MaxWeight(Questionnaire[4].options) == 30 && MinWeight(Questionnaire[4].options) == 0
  {
    assert WellFormed(Questionnaire);
    assert MaxWeight(Questionnaire[0].options) == 15 && MinWeight(Questionnaire[0].options) == 5 by {
      AscendingThree(Questionnaire[0].options);
    }
    assert MaxWeight(Questionnaire[1].options) == 15 && MinWeight(Questionnaire[1].options) == 5 by {
      AscendingThree(Questionnaire[1].options);
    }
    assert MaxWeight(Questionnaire[2].options) == 20 && MinWeight(Questionnaire[2].options) == 5 by {
      AscendingThree(Questionnaire[2].options);
    }
    assert MaxWeight(Questionnaire[3].options) == 20 && MinWeight(Questionnaire[3].options) == 5 by {
      AscendingThree(Questionnaire[3].options);
    }
    assert MaxWeight(Questionnaire[4].options) == 30 && MinWeight(Questionnaire[4].options) == 0 by {
      AscendingThree(Questionnaire[4].options);
    }
  }

  /** The reachable range of each area, question by question. */
  lemma AreaRange(a: Area)
    ensures WellFormed(Questionnaire)
    ensures AreaMax(Questionnaire, a) == match a
      case FinancialCapacity => 30
      case Knowledge => 20
      case TimeHorizon => 20
      case PsychologicalTolerance => 30
    ensures AreaMin(Questionnaire, a) == match a
      case FinancialCapacity => 10
      case Knowledge => 5
      case TimeHorizon => 5
      case PsychologicalTolerance => 0
  {
    CatalogWeights();
    FiveQuestionRange(Questionnaire, a);
  }

  /**
   The normalisation maxima are exactly what the catalog's weights allow in
   each area, the lowest reachable area scores are non-negative, and the
   maxima add up to the maximum total score.
   */
  lemma CatalogMaxima()
    ensures WellFormed(Questionnaire)
    ensures |AreaOrder| == |MaxScores| == 4
    ensures forall i :: 0 <= i < 4 ==> AreaMax(Questionnaire, AreaOrder[i]) == MaxScores[i]
    ensures forall a :: AreaMin(Questionnaire, a) >= 0
    ensures MaxScores[0] + MaxScores[1] + MaxScores[2] + MaxScores[3] == MaxTotal
  {
    forall i | 0 <= i < 4 ensures AreaMax(Questionnaire, AreaOrder[i]) == MaxScores[i] {
      AreaRange(AreaOrder[i]);
    }
    forall a: Area ensures AreaMin(Questionnaire, a) >= 0 {
      AreaRange(a);
    }
  }
}
