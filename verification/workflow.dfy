/**
 The gap analysis and justification workflow of a submission, as an explicit
 state machine: a submission is classified; if the calculated profile is the
 desired one the record is aligned at once, otherwise it waits for a
 justification, which completes it. Only completed records are reported.
 */
module Workflow {
  import opened Wrappers
  import opened Catalog
  import opened Scoring
  import opened Bands
  import opened Profiler

  /** The justification of a record whose calculated and desired profiles agree. */
  const AlignedNote: string := "Profilo calcolato e desiderato sono allineati."

  /** The justification recorded when the adviser confirms an empty text. */
  const MissingNote: string := "Nessuna giustificazione fornita."

  /** Where a submission stands. */
  datatype Stage =
    | AwaitingSubmission
    | Classified(client: ClientData)
    | AwaitingJustification(client: ClientData)
    | Aligned(client: ClientData)
    | Justified(client: ClientData)

  /** What the adviser can do: submit the form, or confirm a justification text. */
  datatype Event =
    | Submit(timestamp: string, name: string, answers: seq<nat>, desired: string)
    | Confirm(text: string)

  /** Scores and classifies a submission and records the desired profile. */
  function Classify(timestamp: string, name: string, answers: seq<nat>, desired: string): Stage
    requires ValidAnswers(Questionnaire, answers)
  {
    Classified(Evaluate(timestamp, name, answers).0.(desired := desired))
  }

  /** The gap check: an aligned record is completed, a divergent one waits for a justification. */
  function Assess(s: Stage): Stage
  {
    match s
    case Classified(c) =>
      if c.profile != c.desired then AwaitingJustification(c)
      else Aligned(c.(justification := AlignedNote))
    case _ => s
  }

  /** The confirmation of a justification: an empty text is replaced by the sentinel. */
  function ConfirmJustification(s: Stage, text: string): Stage
  {
    match s
    case AwaitingJustification(c) =>
      Justified(c.(justification := if text != "" then text else MissingNote))
    case _ => s
  }

  /**
   An event is possible when its answers come from the form's options and its
   desired profile from the table's names (the form offers nothing else).
   */
  predicate ValidEvent(e: Event)
  {
    e.Submit? ==> ValidAnswers(Questionnaire, e.answers) && e.desired in ProfileNames()
  }

  /**
   One step of the workflow. A submission starts over from any stage (a new
   form submission replaces the pending one); a confirmation acts only while a
   justification is awaited, since only then is its button shown.
   */
  function Step(s: Stage, e: Event): Stage
    requires ValidEvent(e)
  {
    match e
    case Submit(timestamp, name, answers, desired) => Assess(Classify(timestamp, name, answers, desired))
    case Confirm(text) => ConfirmJustification(s, text)
  }

  /** The record shown and exported: only a completed (aligned or justified) one. */
  function Report(s: Stage): (r: Option<ClientData>)
    ensures r.Some? <==> s.Aligned? || s.Justified?
    ensures r.Some? ==> r.value == s.client
  {
    match s
    case Aligned(c) => Some(c)
    case Justified(c) => Some(c)
    case _ => None
  }

  /** The gap label of a record. */
  function GapLabel(c: ClientData): string
  {
    if c.profile != c.desired then "DISALLINEATO" else "ALLINEATO"
  }

  /** The record's profile fields are those the scoring and the guardrail compute from its scores. */
  predicate Derived(c: ClientData)
  {
    var d := DetermineProfile(c.timestamp, c.name, c.score, c.details).0;
    && c.profile == d.profile && c.description == d.description && c.allocation == d.allocation
    && c.score == c.details.Sum() && 0 <= c.score <= MaxTotal
  }

  /** A freshly evaluated record is derived from its scores. */
  lemma EvaluateDerived(timestamp: string, name: string, answers: seq<nat>)
    requires ValidAnswers(Questionnaire, answers)
    ensures Derived(Evaluate(timestamp, name, answers).0)
  {
  }

  /** Whether a record is derived does not depend on its desired profile or justification. */
  lemma DerivedIgnoresGap(c: ClientData, desired: string, justification: string)
    requires Derived(c)
    ensures Derived(c.(desired := desired, justification := justification))
  {
  }

  /** What holds of the record at each stage. */
  predicate Consistent(s: Stage)
  {
    match s
    case AwaitingSubmission => true
    case Classified(c) => Derived(c) && c.justification == NotAvailable
    case AwaitingJustification(c) => Derived(c) && c.profile != c.desired && c.justification == NotAvailable
    case Aligned(c) => Derived(c) && c.profile == c.desired && c.justification == AlignedNote
    case Justified(c) => Derived(c) && c.profile != c.desired && c.justification != ""
  }

  /**
   A submission is classified from its answers; when the calculated profile is
   the desired one it is completed at once with the aligned sentinel and no
   justification is asked for, otherwise it waits for one, still "N/A".
   */
  lemma SubmitOutcome(s: Stage, timestamp: string, name: string, answers: seq<nat>, desired: string)
    requires ValidAnswers(Questionnaire, answers) && desired in ProfileNames()
    ensures var r, e := Step(s, Submit(timestamp, name, answers, desired)), Evaluate(timestamp, name, answers).0;
      && (r.Aligned? || r.AwaitingJustification?)
      && r.client.desired == desired
      && r.client == e.(desired := desired, justification := r.client.justification)
      && (r.Aligned? <==> e.profile == desired)
      && (r.Aligned? ==> r.client.justification == AlignedNote)
      && (r.AwaitingJustification? ==> r.client.justification == NotAvailable)
  {
    var c := Evaluate(timestamp, name, answers).0;
    var k := c.(desired := desired);
    assert Step(s, Submit(timestamp, name, answers, desired)) == Assess(Classified(k));
    assert c.justification == NotAvailable;
    AssessOutcome(k);
  }

  /** The gap check on a classified record, whatever the record. */
  lemma AssessOutcome(k: ClientData)
    ensures var r := Assess(Classified(k));
      && (r.Aligned? || r.AwaitingJustification?)
      && r.client == k.(justification := r.client.justification)
      && (r.Aligned? <==> k.profile == k.desired)
      && (r.Aligned? ==> r.client.justification == AlignedNote)
      && (r.AwaitingJustification? ==> r.client == k)
  {
  }

  /**
   Confirming while a justification is awaited completes the record with the
   supplied text, or with the "none provided" sentinel when it is empty, and
   changes nothing else; in any other stage a confirmation changes nothing.
   */
  lemma ConfirmOutcome(s: Stage, text: string)
    ensures var r := Step(s, Confirm(text));
      && (s.AwaitingJustification? ==>
            && r.Justified?
            && r.client == s.client.(justification := r.client.justification)
            && (text != "" ==> r.client.justification == text)
            && (text == "" ==> r.client.justification == MissingNote))
      && (!s.AwaitingJustification? ==> r == s)
  {
  }

  /** A submission, aligned or not, leaves a consistent stage. */
  lemma SubmitConsistent(timestamp: string, name: string, answers: seq<nat>, desired: string)
    requires ValidAnswers(Questionnaire, answers)
    ensures Consistent(Assess(Classify(timestamp, name, answers, desired)))
  {
    var c := Evaluate(timestamp, name, answers).0;
    var k := c.(desired := desired);
    assert Classify(timestamp, name, answers, desired) == Classified(k);
    EvaluateDerived(timestamp, name, answers);
    DerivedIgnoresGap(c, desired, c.justification);
    if k.profile != desired {
      AwaitingConsistent(k);
    } else {
      DerivedIgnoresGap(c, desired, AlignedNote);
      AlignedConsistent(k);
    }
  }

  /** A divergent classified record waits consistently for its justification. */
  lemma AwaitingConsistent(k: ClientData)
    requires Derived(k) && k.justification == NotAvailable && k.profile != k.desired
    ensures Consistent(Assess(Classified(k)))
  {
  }

  /** An aligned classified record is completed consistently. */
  lemma AlignedConsistent(k: ClientData)
    requires Derived(k.(justification := AlignedNote)) && k.profile == k.desired
    ensures Consistent(Assess(Classified(k)))
  {
  }

  /** A confirmation keeps a consistent stage consistent. */
  lemma ConfirmConsistent(s: Stage, text: string)
    requires Consistent(s)
    ensures Consistent(ConfirmJustification(s, text))
  {
    if s.AwaitingJustification? {
      DerivedIgnoresGap(s.client, s.client.desired, if text != "" then text else MissingNote);
    }
  }

  /** Every step keeps the stage consistent. */
  lemma StepConsistent(s: Stage, e: Event)
    requires ValidEvent(e) && Consistent(s)
    ensures Consistent(Step(s, e))
  {
    match e
    case Submit(timestamp, name, answers, desired) => SubmitConsistent(timestamp, name, answers, desired);
    case Confirm(text) => ConfirmConsistent(s, text);
  }

  /** The stage after a sequence of events. */
  function Run(s: Stage, events: seq<Event>): Stage
    requires forall i :: 0 <= i < |events| ==> ValidEvent(events[i])
    decreases |events|
  {
    if |events| == 0 then s else Run(Step(s, events[0]), events[1..])
  }

  /** Whatever the adviser does, starting from an empty form, the stage stays consistent. */
  lemma {:induction false} RunConsistent(s: Stage, events: seq<Event>)
    requires forall i :: 0 <= i < |events| ==> ValidEvent(events[i])
    requires Consistent(s)
    ensures Consistent(Run(s, events))
    decreases |events|
  {
    if |events| > 0 {
      StepConsistent(s, events[0]);
      RunConsistent(Step(s, events[0]), events[1..]);
    }
  }

  /**
   A reported record always carries a non-empty justification; it is aligned
   exactly when its calculated and desired profiles agree, and then the
   justification is the aligned sentinel and the gap label is "ALLINEATO".
   */
  lemma ReportedRecord(s: Stage)
    requires Consistent(s) && Report(s).Some?
    ensures var c := Report(s).value;
      && c.justification != ""
      && (s.Aligned? <==> c.profile == c.desired)
      && (s.Aligned? ==> c.justification == AlignedNote)
      && (GapLabel(c) == "ALLINEATO" <==> s.Aligned?)
      && Derived(c)
  {
  }
}
