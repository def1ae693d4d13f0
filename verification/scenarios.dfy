/**
 Worked submissions of the form: the guardrail's demotions, the unguarded
 top score, and the asymmetry that keeps "4. Dinamico" at a capacity of 11..15.
 Answers are option indexes, in the order A1, A2, B1, C1, D1.
 */
module Scenarios {
  import opened Catalog
  import opened Scoring
  import opened Bands
  import opened Profiler
  import opened Workflow

  /** The scores and the band of a valid submission, from the closed form of the scoring. */
  lemma Scores(answers: seq<nat>, details: Breakdown)
    requires ValidAnswers(Questionnaire, answers)
    requires var q := Questionnaire;
      details == Breakdown(
        Weight(q[0], answers[0]) + Weight(q[1], answers[1]),
        Weight(q[2], answers[2]), Weight(q[3], answers[3]), Weight(q[4], answers[4]))
    ensures forall timestamp, name :: Evaluate(timestamp, name, answers).0.details == details
    ensures forall timestamp, name :: Evaluate(timestamp, name, answers).0.score == details.Sum()
  {
    CatalogDetails(answers);
  }

  /**
   Low capacity demotes Dinamico: A1 and A2 at their lowest (10/30) with the
   rest at their highest scores 80, band "4. Dinamico", reported as
   "2. Moderato" with the Moderato allocation.
   */
  lemma LowCapacityDemotesDinamico(timestamp: string, name: string)
    ensures ValidAnswers(Questionnaire, [0, 0, 2, 2, 2])
    ensures var r := Evaluate(timestamp, name, [0, 0, 2, 2, 2]);
      && r.0.score == 80 && r.0.details.capacity == 10
      && r.1 == "4. Dinamico"
      && r.0.profile == "2. Moderato" && r.0.allocation == "Obbligazioni: 60% / Azioni: 40%"
  {
    var r := Evaluate(timestamp, name, [0, 0, 2, 2, 2]);
    Scores([0, 0, 2, 2, 2], Breakdown(10, 20, 20, 30));
    assert r.0.details == Breakdown(10, 20, 20, 30) && r.0.score == 80;
    assert Covers(Profiles[3], 80);
    PositionOfBand(3);
    assert Position(LookupBand(80).name) == 4;
    assert r.0 == DetermineProfile(timestamp, name, 80, Breakdown(10, 20, 20, 30)).0;
  }

  /** The highest answers score 100 and keep "5. Aggressivo": the capacity is 30/30. */
  lemma TopScoreStaysAggressivo(timestamp: string, name: string)
    ensures ValidAnswers(Questionnaire, [2, 2, 2, 2, 2])
    ensures var r := Evaluate(timestamp, name, [2, 2, 2, 2, 2]);
      && r.0.score == 100 && r.0.details == Breakdown(30, 20, 20, 30)
      && r.1 == "5. Aggressivo" && r.0.profile == "5. Aggressivo"
  {
    var r := Evaluate(timestamp, name, [2, 2, 2, 2, 2]);
    Scores([2, 2, 2, 2, 2], Breakdown(30, 20, 20, 30));
    assert r.0.details == Breakdown(30, 20, 20, 30) && r.0.score == 100;
    assert Covers(Profiles[4], 100);
    PositionOfBand(4);
    assert Position(LookupBand(100).name) == 5;
    assert r.0 == DetermineProfile(timestamp, name, 100, Breakdown(30, 20, 20, 30)).0;
  }

  /**
   Medium capacity downsizes Aggressivo: a capacity of 15/30 with the rest at
   their highest scores 85, band "5. Aggressivo", reported as "3. Bilanciato".
   */
  lemma MediumCapacityDownsizesAggressivo(timestamp: string, name: string)
    ensures ValidAnswers(Questionnaire, [0, 1, 2, 2, 2])
    ensures var r := Evaluate(timestamp, name, [0, 1, 2, 2, 2]);
      && r.0.score == 85 && r.0.details.capacity == 15
      && r.1 == "5. Aggressivo"
      && r.0.profile == "3. Bilanciato" && r.0.allocation == "Obbligazioni: 50% / Azioni: 50%"
  {
    var r := Evaluate(timestamp, name, [0, 1, 2, 2, 2]);
    Scores([0, 1, 2, 2, 2], Breakdown(15, 20, 20, 30));
    assert r.0.details == Breakdown(15, 20, 20, 30) && r.0.score == 85;
    assert Covers(Profiles[4], 85);
    PositionOfBand(4);
    assert Position(LookupBand(85).name) == 5;
    assert r.0 == DetermineProfile(timestamp, name, 85, Breakdown(15, 20, 20, 30)).0;
  }

  /**
   The asymmetry of the guardrail: at a capacity of 15/30 a Dinamico band
   (score 75) is kept, while the same capacity downsizes an Aggressivo one.
   */
  lemma MediumCapacityKeepsDinamico(timestamp: string, name: string)
    ensures ValidAnswers(Questionnaire, [0, 1, 1, 2, 2])
    ensures var r := Evaluate(timestamp, name, [0, 1, 1, 2, 2]);
      && r.0.score == 75 && r.0.details.capacity == 15
      && r.1 == "4. Dinamico" && r.0.profile == "4. Dinamico"
  {
    var r := Evaluate(timestamp, name, [0, 1, 1, 2, 2]);
    Scores([0, 1, 1, 2, 2], Breakdown(15, 10, 20, 30));
    assert r.0.details == Breakdown(15, 10, 20, 30) && r.0.score == 75;
    assert Covers(Profiles[3], 75);
    PositionOfBand(3);
    assert Position(LookupBand(75).name) == 4;
    assert r.0 == DetermineProfile(timestamp, name, 75, Breakdown(15, 10, 20, 30)).0;
  }

  /**
   A client demoted to "2. Moderato" who wants "4. Dinamico" is not reported
   until a justification is confirmed; confirming an empty one records the
   "none provided" sentinel, and the report shows the gap.
   */
  lemma DemotedClientNeedsJustification(timestamp: string, name: string)
    ensures ValidEvent(Submit(timestamp, name, [0, 0, 2, 2, 2], "4. Dinamico"))
    ensures var waiting := Step(AwaitingSubmission, Submit(timestamp, name, [0, 0, 2, 2, 2], "4. Dinamico"));
      && waiting.AwaitingJustification? && Report(waiting).None?
      && var done := Step(waiting, Confirm(""));
      && done.Justified? && Report(done).Some?
      && done.client.justification == MissingNote && GapLabel(done.client) == "DISALLINEATO"
  {
    NamesOfProfiles();
    LowCapacityDemotesDinamico(timestamp, name);
    SubmitOutcome(AwaitingSubmission, timestamp, name, [0, 0, 2, 2, 2], "4. Dinamico");
    var waiting := Step(AwaitingSubmission, Submit(timestamp, name, [0, 0, 2, 2, 2], "4. Dinamico"));
    ConfirmOutcome(waiting, "");
  }

  /** A client whose desired profile is the calculated one is reported at once as aligned. */
  lemma AlignedClientReportedAtOnce(timestamp: string, name: string)
    ensures ValidEvent(Submit(timestamp, name, [2, 2, 2, 2, 2], "5. Aggressivo"))
    ensures var r := Step(AwaitingSubmission, Submit(timestamp, name, [2, 2, 2, 2, 2], "5. Aggressivo"));
      && r.Aligned? && Report(r).Some?
      && r.client.justification == AlignedNote && GapLabel(r.client) == "ALLINEATO"
  {
    NamesOfProfiles();
    TopScoreStaysAggressivo(timestamp, name);
    SubmitOutcome(AwaitingSubmission, timestamp, name, [2, 2, 2, 2, 2], "5. Aggressivo");
  }
}
