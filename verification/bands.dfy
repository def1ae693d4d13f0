/**
 The profile band table (`RiskProfiler.PROFILES`): five inclusive score ranges,
 each mapped to a profile name, a description and a suggested allocation,
 and the first-match lookup of `_determine_profile`.
 */
module Bands {
  import opened Wrappers
  import opened Catalog

  /** What a band assigns: a profile name, its description and its allocation. */
  datatype Profile = Profile(name: string, description: string, allocation: string)

  /** An inclusive score range and the profile it assigns. */
  datatype Band = Band(low: int, high: int, profile: Profile)

  /** The table, in the insertion order the lookup scans. */
  const Profiles: seq<Band> := [
    Band(0, 20, Profile("1. Conservatore",
      "Focus su preservazione del capitale, Basso rischio.", "Obbligazioni: 80% / Azioni: 20%")),
    Band(21, 40, Profile("2. Moderato",
      "Bilanciamento tra rendimento e protezione.", "Obbligazioni: 60% / Azioni: 40%")),
    Band(41, 60, Profile("3. Bilanciato",
      "Equilibrio tra crescita e conservazione.", "Obbligazioni: 50% / Azioni: 50%")),
    Band(61, 80, Profile("4. Dinamico",
      "Predominanza di opportunità di crescita, Rischio Elevato.", "Obbligazioni: 30% / Azioni: 70%")),
    Band(81, 100, Profile("5. Aggressivo",
      "Massimizzazione del rendimento, tolleranza massima al rischio.", "Obbligazioni: 10% / Azioni: 90%"))
  ]

  /** The result when no band covers the score. */
  const Unclassified: Profile := Profile("Non Classificabile", "", "Da definire.")

  /** Band `b` covers `score`. */
  predicate Covers(b: Band, score: int)
  {
    b.low <= score <= b.high
  }

  /** The index of the first band of `bands` that covers `score`, if any. */
  function FirstMatch(bands: seq<Band>, score: int): (r: Option<nat>)
    ensures r.Some? ==> r.value < |bands| && Covers(bands[r.value], score)
    ensures r.Some? ==> forall j :: 0 <= j < r.value ==> !Covers(bands[j], score)
    ensures r.None? <==> forall j :: 0 <= j < |bands| ==> !Covers(bands[j], score)
    decreases |bands|
  {
    if |bands| == 0 then None
    else if Covers(bands[0], score) then Some(0)
    else
      match FirstMatch(bands[1..], score)
      case None => None
      case Some(k) => Some(k + 1)
  }

  /** Each band is a non-empty range that starts right after the previous one ends. */
  predicate Contiguous(bands: seq<Band>)
  {
    && |bands| > 0
    && (forall i :: 0 <= i < |bands| ==> bands[i].low <= bands[i].high)
    && (forall i :: 0 < i < |bands| ==> bands[i].low == bands[i - 1].high + 1)
  }

  /** In contiguous bands, a later band starts after every earlier one ends. */
  lemma {:induction false} ContiguousOrdered(bands: seq<Band>, i: nat, j: nat)
    requires Contiguous(bands) && i < j < |bands|
    ensures bands[i].high < bands[j].low
    decreases j - i
  {
    if i + 1 < j {
      ContiguousOrdered(bands, i + 1, j);
    }
  }

  /** Contiguous bands cover exactly the scores from the first low to the last high. */
  lemma {:induction false} ContiguousCoverage(bands: seq<Band>, score: int)
    requires Contiguous(bands)
    ensures (exists i :: 0 <= i < |bands| && Covers(bands[i], score))
      <==> bands[0].low <= score <= bands[|bands| - 1].high
    decreases |bands|
  {
    var n := |bands|;
    if n > 1 {
      var rest := bands[..n - 1];
      assert Contiguous(rest);
      ContiguousCoverage(rest, score);
      if bands[0].low <= score <= bands[n - 1].high && score < bands[n - 1].low {
        var i :| 0 <= i < n - 1 && Covers(rest[i], score);
        assert Covers(bands[i], score);
      }
      if exists i :: 0 <= i < n && Covers(bands[i], score) {
        var i :| 0 <= i < n && Covers(bands[i], score);
        if i < n - 1 {
          assert Covers(rest[i], score);
        } else if n - 1 > 0 {
          ContiguousOrdered(bands, 0, n - 1);
        }
      }
    }
  }

  /** The band table is contiguous from 0 to the maximum total score. */
  lemma ProfilesContiguous()
    ensures Contiguous(Profiles)
    ensures Profiles[0].low == 0 && Profiles[|Profiles| - 1].high == MaxTotal
  {
  }

  /**
   The five bands partition 0..100: every score in range is covered by exactly
   one band, and a score outside it by none.
   */
  lemma ProfilesPartition(score: int)
    ensures 0 <= score <= MaxTotal <==> exists i :: 0 <= i < |Profiles| && Covers(Profiles[i], score)
    ensures forall i, j ::
      (0 <= i < |Profiles| && 0 <= j < |Profiles| && Covers(Profiles[i], score) && Covers(Profiles[j], score))
      ==> i == j
  {
    ProfilesContiguous();
    ContiguousCoverage(Profiles, score);
    forall i, j | 0 <= i < j < |Profiles|
      ensures !(Covers(Profiles[i], score) && Covers(Profiles[j], score))
    {
      ContiguousOrdered(Profiles, i, j);
    }
  }

  /**
   The band lookup: the profile of the band covering `score`, or the
   "Non Classificabile" fallback when no band does.
   */
  function LookupBand(score: int): (r: Profile)
    ensures forall i :: 0 <= i < |Profiles| && Covers(Profiles[i], score) ==> r == Profiles[i].profile
    ensures 0 <= score <= MaxTotal ==>
      exists i :: 0 <= i < |Profiles| && Covers(Profiles[i], score) && r == Profiles[i].profile
    ensures !(0 <= score <= MaxTotal) ==> r == Unclassified
  {
    ProfilesPartition(score);
    match FirstMatch(Profiles, score)
    case Some(i) => Profiles[i].profile
    case None => Unclassified
  }

  /** The names of the table, in order (the choices for the desired profile). */
  function ProfileNames(): (names: seq<string>)
    ensures |names| == |Profiles|
    ensures forall i :: 0 <= i < |Profiles| ==> names[i] == Profiles[i].profile.name
  {
    seq(|Profiles|, i requires 0 <= i < |Profiles| => Profiles[i].profile.name)
  }

  /** The rank of a profile name: 1 to 5 for the table's bands, 0 for any other name. */
  function Position(name: string): (p: nat)
    ensures p <= |Profiles|
    ensures p > 0 ==> Profiles[p - 1].profile.name == name
    ensures p == 0 ==> forall i :: 0 <= i < |Profiles| ==> Profiles[i].profile.name != name
  {
    match FirstName(Profiles, name)
    case Some(i) => i + 1
    case None => 0
  }

  /** The index of the first band of `bands` whose profile is called `name`. */
  function FirstName(bands: seq<Band>, name: string): (r: Option<nat>)
    ensures r.Some? ==> r.value < |bands| && bands[r.value].profile.name == name
    ensures r.None? ==> forall j :: 0 <= j < |bands| ==> bands[j].profile.name != name
    decreases |bands|
  {
    if |bands| == 0 then None
    else if bands[0].profile.name == name then Some(0)
    else
      match FirstName(bands[1..], name)
      case None => None
      case Some(k) => Some(k + 1)
  }

  /** The table's names are distinct, so every band's name has the band's own rank. */
  lemma PositionOfBand(i: nat)
    requires i < |Profiles|
    ensures Position(Profiles[i].profile.name) == i + 1
  {
    NamesOfProfiles();
  }

  /** The names of the table, spelled out. */
  lemma NamesOfProfiles()
    ensures ProfileNames() == ["1. Conservatore", "2. Moderato", "3. Bilanciato", "4. Dinamico", "5. Aggressivo"]
  {
  }
}
