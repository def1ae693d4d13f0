/**
 The client record and `_determine_profile`: the band lookup of the total
 score followed by the financial-capacity guardrail, which can demote a
 "Dinamico" or "Aggressivo" band when the capacity sub-score is low.
 */
module Profiler {
  import opened Text
  import opened Catalog
  import opened Scoring
  import opened Bands

  /**
   One client's profiling record (`ClientData`). `timestamp` is the creation
   time as the profiler formats it ("%Y-%m-%d %H:%M:%S.%f"), supplied by the caller.
   */
  datatype ClientData = ClientData(
    timestamp: string,
    name: string,
    score: int,
    profile: string,
    allocation: string,
    details: Breakdown,
    description: string,
    desired: string,
    justification: string)

  /** The placeholder of a fresh record's desired profile and justification. */
  const NotAvailable: string := "N/A"

  /** The annotation of a demotion to "2. Moderato". */
  const DemotedNote: string := " [⚠ Declassato per Bassa Capacità Finanziaria (<=10/30)]."

  /** The annotation of a demotion to "3. Bilanciato". */
  const DownsizedNote: string := " [⚠ Ridimensionato per Capacità Finanziaria Media/Bassa (<=15/30)]."

  /** The profile of the band 21..40. */
  const Moderato: Profile := Profiles[1].profile

  /** The profile of the band 41..60. */
  const Bilanciato: Profile := Profiles[2].profile

  /** The guardrail's trigger: the profile name mentions "Aggressivo" or "Dinamico". */
  predicate HighRisk(name: string)
  {
    Occurs("Aggressivo", name) || Occurs("Dinamico", name)
  }

  /**
   The guardrail: with capacity at most 10 a high-risk profile becomes
   Moderato; with capacity at most 15 an "Aggressivo" one becomes Bilanciato;
   anything else is kept. The description gains the matching annotation.
   */
  function ApplyGuardrail(raw: Profile, capacity: int): Profile
  {
    if capacity <= 15 && HighRisk(raw.name) then
      if capacity <= 10 then
        Profile(Moderato.name, raw.description + DemotedNote, Moderato.allocation)
      else if capacity <= 15 && Occurs("Aggressivo", raw.name) then
        Profile(Bilanciato.name, raw.description + DownsizedNote, Bilanciato.allocation)
      else raw
    else raw
  }

  /** Of the table's names and the fallback, only "5. Aggressivo" mentions "Aggressivo". */
  lemma AggressivoNames()
    ensures !Occurs("Aggressivo", "1. Conservatore") && !Occurs("Aggressivo", "2. Moderato")
    ensures !Occurs("Aggressivo", "3. Bilanciato") && !Occurs("Aggressivo", "4. Dinamico")
    ensures Occurs("Aggressivo", "5. Aggressivo") && !Occurs("Aggressivo", "Non Classificabile")
  {
    AbsentHeadNeverOccurs("Aggressivo", "1. Conservatore");
    AbsentHeadNeverOccurs("Aggressivo", "2. Moderato");
    AbsentHeadNeverOccurs("Aggressivo", "3. Bilanciato");
    AbsentHeadNeverOccurs("Aggressivo", "4. Dinamico");
    OccursAt("Aggressivo", "5. Aggressivo", 3);
    AbsentHeadNeverOccurs("Aggressivo", "Non Classificabile");
  }

  /** Of the table's names and the fallback, only "4. Dinamico" mentions "Dinamico". */
  lemma DinamicoNames()
    ensures !Occurs("Dinamico", "1. Conservatore") && !Occurs("Dinamico", "2. Moderato")
    ensures !Occurs("Dinamico", "3. Bilanciato") && Occurs("Dinamico", "4. Dinamico")
    ensures !Occurs("Dinamico", "5. Aggressivo") && !Occurs("Dinamico", "Non Classificabile")
  {
    AbsentHeadNeverOccurs("Dinamico", "1. Conservatore");
    AbsentHeadNeverOccurs("Dinamico", "2. Moderato");
    AbsentHeadNeverOccurs("Dinamico", "3. Bilanciato");
    OccursAt("Dinamico", "4. Dinamico", 3);
    AbsentHeadNeverOccurs("Dinamico", "5. Aggressivo");
    AbsentHeadNeverOccurs("Dinamico", "Non Classificabile");
  }

  /** Of the table's names, only the fifth mentions "Aggressivo" and only the fourth "Dinamico". */
  lemma TableRiskNames(i: nat)
    requires i < |Profiles|
    ensures Occurs("Aggressivo", Profiles[i].profile.name) <==> i == 4
    ensures Occurs("Dinamico", Profiles[i].profile.name) <==> i == 3
  {
    NamesOfProfiles();
    AggressivoNames();
    DinamicoNames();
  }

  /** The fallback name mentions neither "Aggressivo" nor "Dinamico". */
  lemma UnclassifiedNotHighRisk()
    ensures !HighRisk(Unclassified.name)
  {
    AggressivoNames();
    DinamicoNames();
  }

  /**
   On the looked-up band, the substring tests of the guardrail are position
   tests: "Aggressivo" is rank 5, "Dinamico" rank 4.
   */
  lemma LookupRisk(score: int)
    ensures var raw := LookupBand(score);
      && (Occurs("Aggressivo", raw.name) <==> Position(raw.name) == 5)
      && (HighRisk(raw.name) <==> Position(raw.name) >= 4)
      && (Position(raw.name) == 0 <==> raw == Unclassified)
  {
    var raw := LookupBand(score);
    ProfilesPartition(score);
    if 0 <= score <= MaxTotal {
      var i :| 0 <= i < |Profiles| && Covers(Profiles[i], score) && raw == Profiles[i].profile;
      TableRiskNames(i);
      PositionOfBand(i);
    } else {
      UnclassifiedNotHighRisk();
      assert Position(raw.name) == 0 by {
        forall i | 0 <= i < |Profiles| ensures Profiles[i].profile.name != raw.name {
          PositionOfBand(i);
        }
      }
    }
  }

  /**
   `_determine_profile`: the band of `score`, passed through the guardrail
   with the capacity sub-score, in a fresh record whose desired profile and
   justification are "N/A"; also returns the band's name before the guardrail.
   */
  function DetermineProfile(timestamp: string, name: string, score: int, details: Breakdown)
    : (r: (ClientData, string))
    ensures var raw, cap, c := LookupBand(score), details.capacity, r.0;
      && r.1 == raw.name
      && c.timestamp == timestamp && c.name == name && c.score == score && c.details == details
      && c.desired == NotAvailable && c.justification == NotAvailable
      && (Position(raw.name) >= 4 && cap <= 10 ==>
            c.profile == Moderato.name && c.allocation == Moderato.allocation
            && c.description == raw.description + DemotedNote)
      && (Position(raw.name) == 5 && 10 < cap <= 15 ==>
            c.profile == Bilanciato.name && c.allocation == Bilanciato.allocation
            && c.description == raw.description + DownsizedNote)
      && (Position(raw.name) == 4 && 10 < cap <= 15 ==>
            c.profile == raw.name && c.allocation == raw.allocation && c.description == raw.description)
      && (cap > 15 || Position(raw.name) < 4 ==>
            c.profile == raw.name && c.allocation == raw.allocation && c.description == raw.description)
      && Position(c.profile) <= Position(raw.name)
  {
    var raw := LookupBand(score);
    LookupRisk(score);
    PositionOfBand(1);
    PositionOfBand(2);
    var p := ApplyGuardrail(raw, details.capacity);
    (ClientData(timestamp, name, score, p.name, p.allocation, details, p.description, NotAvailable, NotAvailable),
     raw.name)
  }

  /**
   Applying the guardrail to its own result changes nothing: Moderato and
   Bilanciato are not high-risk, so a demoted profile is not demoted again.
   */
  lemma GuardrailIdempotent(raw: Profile, capacity: int)
    ensures var once := ApplyGuardrail(raw, capacity);
      ApplyGuardrail(once, capacity) == once
  {
    TableRiskNames(1);
    TableRiskNames(2);
  }

  /**
   The whole submission: score the answers as the form's scoring loop does and determine the
   profile of the resulting total and breakdown.
   */
  function Evaluate(timestamp: string, name: string, answers: seq<nat>): (r: (ClientData, string))
    requires ValidAnswers(Questionnaire, answers)
    ensures r.0.score == r.0.details.Sum()
    ensures 0 <= r.0.score <= MaxTotal
    ensures forall i :: 0 <= i < |AreaOrder| ==> 0 <= r.0.details.Get(AreaOrder[i]) <= MaxScores[i]
    ensures r.1 in ProfileNames() && r.0.profile in ProfileNames()
    ensures r.0.timestamp == timestamp && r.0.name == name
    ensures r == DetermineProfile(timestamp, name, r.0.score, r.0.details)
    ensures r.0.details == Details(Picks(Questionnaire, answers))
  {
    var ps := Picks(Questionnaire, answers);
    ScoreRange(answers);
    var r := DetermineProfile(timestamp, name, Total(ps), Details(ps));
    var raw := LookupBand(Total(ps));
    assert exists i :: 0 <= i < |Profiles| && raw == Profiles[i].profile;
    assert Moderato.name == ProfileNames()[1] && Bilanciato.name == ProfileNames()[2];
    r
  }
}
