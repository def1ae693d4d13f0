# Risk-tolerance profiler: a Dafny model of its classification engine

The profiler (`VALUTAZIONE_DI_TOLLERANZA_DEL_RISCHIO.py`) is a MiFID-style
suitability questionnaire. The client answers five weighted questions, and
each answer feeds one of four areas:

- financial capacity;
- knowledge;
- time horizon;
- psychological tolerance.

The total score (0..100) falls into one of five bands, "1. Conservatore" to
"5. Aggressivo". A guardrail on the financial-capacity sub-score can then
demote a "Dinamico" or "Aggressivo" band. The calculated profile is compared
with the profile the client desires. When the two diverge, the record waits
for the adviser's justification before it is reported.

This project models that engine in Dafny and proves properties of the model:

- the questionnaire and band tables (`catalog.dfy`, `bands.dfy`);
- the scoring loop (`scoring.dfy`);
- `_determine_profile`, that is, the band lookup followed by the guardrail (`profiler.dfy`);
- the gap and justification flow of the form, as an explicit state machine (`workflow.dfy`);
- the report sheet-name derivation (`naming.dfy`);
- worked submissions (`scenarios.dfy`).

`text.dfy` models the Python string operations the source uses: `in` on
strings, `replace`, and slicing. `wrappers.dfy` holds the `Option` type.

Modelling choices:

- An answer is the index of the chosen option, so a submission is a sequence of five indexes.
- The record's timestamp (`datetime.now()`) is a parameter.
- Session state becomes a `Stage` value, and the form's actions become events:
  - a submission (the form's submit button);
  - a justification confirmation (the confirm button, shown only while a justification is awaited).
- A new submission starts over from any stage, as a new form submission does.
  This is also how a pending classification is abandoned.
- The guardrail keeps the source's substring tests (`"Aggressivo" in name`).
  `Profiler.LookupRisk` proves that on a looked-up band these tests are exactly rank tests.

Edge behaviour the model keeps from the code:

- The code's lookup scans the bands in table order and stops at the first
  match. On this table that is the only match (`Bands.ProfilesPartition`).
- A score outside 0..100 gets "Non Classificabile", with allocation
  "Da definire." and an empty description. The form cannot produce one.
- The guardrail's downsizing rule for capacity 11..15 applies to "Aggressivo"
  only. A "Dinamico" band at that capacity is kept
  (`Scenarios.MediumCapacityKeepsDinamico`).

## Model

| member | source | states |
|---|---|---|
| Catalog.CatalogWeights | VALUTAZIONE_DI_TOLLERANZA_DEL_RISCHIO.py:66-72 | For each of the five questions, the highest option weight is 15, 15, 20, 20, 30 and the lowest is 5, 5, 5, 5, 0. |
| Catalog.AreaRange | VALUTAZIONE_DI_TOLLERANZA_DEL_RISCHIO.py:66-72 | The best answers in an area sum to 30/20/20/30 (capacity/knowledge/horizon/tolerance). The worst answers sum to 10/5/5/0. |
| Catalog.CatalogMaxima | VALUTAZIONE_DI_TOLLERANZA_DEL_RISCHIO.py:56-72 | The questionnaire is well formed. Each area's best answers reach exactly its normalisation maximum (30, 20, 20, 30). Those maxima add up to PUNTEGGIO_MAX = 100. No area can go below 0. |
| Scoring.DetailsAreAreaScores | VALUTAZIONE_DI_TOLLERANZA_DEL_RISCHIO.py:244-265 | The loop's per-area accumulation equals an independent sum of the weights of that area's answers. |
| Scoring.TotalIsSumOfDetails | VALUTAZIONE_DI_TOLLERANZA_DEL_RISCHIO.py:243-265 | The running total equals the sum of the four area sub-scores, because each weight is added to both. |
| Scoring.DetailsWithinAreaRange | VALUTAZIONE_DI_TOLLERANZA_DEL_RISCHIO.py:251-265 | Each area's sub-score lies between the area's worst-answer sum and its best-answer sum. |
| Scoring.ScoreRange | VALUTAZIONE_DI_TOLLERANZA_DEL_RISCHIO.py:243-265 | For the form, the total is the sum of the sub-scores and lies in 0..100. Each sub-score lies in 0..its maximum 30/20/20/30. |
| Scoring.CatalogDetails | VALUTAZIONE_DI_TOLLERANZA_DEL_RISCHIO.py:66-72 | Both A questions feed the financial capacity. B1 feeds knowledge, C1 the horizon and D1 the tolerance. |
| Scoring.HighestAnswers | VALUTAZIONE_DI_TOLLERANZA_DEL_RISCHIO.py:66-72 | The last option of every question gives sub-scores 30/20/20/30 and the maximum total 100. |
| Scoring.ScoreAnswers | VALUTAZIONE_DI_TOLLERANZA_DEL_RISCHIO.py:243-265 | The loop returns the total and the breakdown, with each area's sub-score equal to that area's weight sum. The weights are those of `Scoring.Picks`, the model's reading of the option lookup at line 263: question i yields the weight of its chosen option, credited to its area. It also returns the total as the breakdown's sum and the per-area bounds. On the form's questionnaire the total is in 0..100. |
| Bands.FirstMatch | VALUTAZIONE_DI_TOLLERANZA_DEL_RISCHIO.py:80-85 | The scan returns the first band in table order whose inclusive range holds the score. It returns None exactly when no band holds it. |
| Bands.ContiguousCoverage | VALUTAZIONE_DI_TOLLERANZA_DEL_RISCHIO.py:58-64 | Bands that follow one another without gap or overlap cover a score exactly when it lies between the first low and the last high. |
| Bands.ProfilesContiguous | VALUTAZIONE_DI_TOLLERANZA_DEL_RISCHIO.py:56-64 | The band table runs contiguously from 0 to PUNTEGGIO_MAX. |
| Bands.ProfilesPartition | VALUTAZIONE_DI_TOLLERANZA_DEL_RISCHIO.py:58-64 | A score is covered by some band exactly when it is in 0..100. It is never covered by two bands. |
| Bands.LookupBand | VALUTAZIONE_DI_TOLLERANZA_DEL_RISCHIO.py:76-85 | The result is the profile of the band covering the score; a band covers every score in range. Out of range, the result is ("Non Classificabile", "", "Da definire."). |
| Bands.NamesOfProfiles | VALUTAZIONE_DI_TOLLERANZA_DEL_RISCHIO.py:248-249 | The desired-profile choices are the five band names, in table order. |
| Bands.PositionOfBand | VALUTAZIONE_DI_TOLLERANZA_DEL_RISCHIO.py:58-64 | The band names are distinct, so each band's name has its own rank 1..5. |
| Profiler.TableRiskNames | VALUTAZIONE_DI_TOLLERANZA_DEL_RISCHIO.py:58-64 | Among the table's names, only the fifth contains "Aggressivo" and only the fourth contains "Dinamico". |
| Profiler.UnclassifiedNotHighRisk | VALUTAZIONE_DI_TOLLERANZA_DEL_RISCHIO.py:76-92 | The fallback name "Non Classificabile" never triggers the guardrail. |
| Profiler.LookupRisk | VALUTAZIONE_DI_TOLLERANZA_DEL_RISCHIO.py:80-97 | On the looked-up band, the substring tests are rank tests. "Aggressivo" means rank 5, "Aggressivo or Dinamico" means rank 4 or more, and the fallback has rank 0. |
| Profiler.DetermineProfile | VALUTAZIONE_DI_TOLLERANZA_DEL_RISCHIO.py:74-104 | The second result is the band's name before the guardrail. Rank 4 or 5 with capacity at most 10 gives Moderato's name and allocation, with the demotion note appended. Rank 5 with capacity 11..15 gives Bilanciato's name and allocation, with the downsizing note appended. Rank 4 with capacity 11..15 is kept. Capacity above 15 or rank below 4 is kept. The guardrail never raises the rank. The record keeps the name, score and breakdown, and its desired profile and justification are "N/A". |
| Profiler.GuardrailIdempotent | VALUTAZIONE_DI_TOLLERANZA_DEL_RISCHIO.py:92-100 | Applying the guardrail to its own result changes nothing, for every profile and capacity. |
| Profiler.Evaluate | VALUTAZIONE_DI_TOLLERANZA_DEL_RISCHIO.py:243-277 | The submission's total equals the breakdown's sum and lies in 0..100, with sub-scores within their maxima. The breakdown is the scoring of the answers. The whole result is `DetermineProfile` of those scores, so the initial profile is the name of the band the total falls in and the record is the guarded classification. Both names are table names. |
| Workflow.Report | VALUTAZIONE_DI_TOLLERANZA_DEL_RISCHIO.py:288-303 | A record is reported only once completed, whether aligned or justified. |
| Workflow.SubmitOutcome | VALUTAZIONE_DI_TOLLERANZA_DEL_RISCHIO.py:276-288 | A submission is classified and records the desired profile. It is completed at once, with the aligned sentinel, exactly when the calculated profile equals the desired one. Otherwise it waits for a justification, which is still "N/A". |
| Workflow.ConfirmOutcome | VALUTAZIONE_DI_TOLLERANZA_DEL_RISCHIO.py:291-299 | While a justification is awaited, confirming completes the record with the typed text, or with "Nessuna giustificazione fornita." when the text is empty, and changes nothing else. In any other stage a confirmation does nothing. |
| Workflow.StepConsistent | VALUTAZIONE_DI_TOLLERANZA_DEL_RISCHIO.py:276-300 | Every event keeps the stage invariant: the profile fields are those computed from the scores; a waiting or justified record diverges; an aligned record agrees and carries the sentinel; a justified record has a non-empty justification. |
| Workflow.RunConsistent | VALUTAZIONE_DI_TOLLERANZA_DEL_RISCHIO.py:276-303 | The invariant holds after any sequence of events. |
| Workflow.ReportedRecord | VALUTAZIONE_DI_TOLLERANZA_DEL_RISCHIO.py:303-323 | A reported record has a non-empty justification and profile fields computed from its scores. It was aligned exactly when the calculated and desired profiles agree, and its gap label is "ALLINEATO" exactly then. |
| Scenarios.LowCapacityDemotesDinamico | VALUTAZIONE_DI_TOLLERANZA_DEL_RISCHIO.py:89-96 | Answers giving capacity 10 and total 80 yield band "4. Dinamico", which is reported as "2. Moderato" with allocation "Obbligazioni: 60% / Azioni: 40%". |
| Scenarios.TopScoreStaysAggressivo | VALUTAZIONE_DI_TOLLERANZA_DEL_RISCHIO.py:89-92 | The highest answers score 100 and keep "5. Aggressivo". |
| Scenarios.MediumCapacityDownsizesAggressivo | VALUTAZIONE_DI_TOLLERANZA_DEL_RISCHIO.py:92-100 | Capacity 15 and total 85 turn band "5. Aggressivo" into "3. Bilanciato" with the 50/50 allocation. |
| Scenarios.MediumCapacityKeepsDinamico | VALUTAZIONE_DI_TOLLERANZA_DEL_RISCHIO.py:92-100 | Capacity 15 and total 75 keep "4. Dinamico": the rule downsizes only Aggressivo at capacity 11..15. |
| Scenarios.DemotedClientNeedsJustification | VALUTAZIONE_DI_TOLLERANZA_DEL_RISCHIO.py:281-299 | A demoted client who desires "4. Dinamico" is not reported while waiting. An empty confirmation completes the record with the "none provided" sentinel and the label "DISALLINEATO". |
| Scenarios.AlignedClientReportedAtOnce | VALUTAZIONE_DI_TOLLERANZA_DEL_RISCHIO.py:285-288 | A client who desires the calculated profile is reported at once with the aligned sentinel and the label "ALLINEATO". |
| Text.ReplaceChar | VALUTAZIONE_DI_TOLLERANZA_DEL_RISCHIO.py:137 | `replace(" ", "_")` has the same length, changes exactly the spaces, and leaves no space. |
| Text.RemoveChar | VALUTAZIONE_DI_TOLLERANZA_DEL_RISCHIO.py:135-137 | `replace(c, "")` drops every `c` and keeps every other character's count. A text without `c` is kept as it is. |
| Text.RemoveCharAppend | VALUTAZIONE_DI_TOLLERANZA_DEL_RISCHIO.py:135-137 | Dropping a character distributes over concatenation, so the characters kept stay in their original order. |
| Text.Strip | VALUTAZIONE_DI_TOLLERANZA_DEL_RISCHIO.py:137 | For the corrected segment: drops every character of a set, keeps every other character's count, and keeps a text without them as it is. |
| Text.StripAppend | VALUTAZIONE_DI_TOLLERANZA_DEL_RISCHIO.py:137 | Dropping a set of characters distributes over concatenation, so the kept characters stay in order. |
| Text.Take | VALUTAZIONE_DI_TOLLERANZA_DEL_RISCHIO.py:137-139 | `s[:n]` is a prefix of `s` of length n, or all of `s` when `s` is shorter. |
| Text.TakeLast | VALUTAZIONE_DI_TOLLERANZA_DEL_RISCHIO.py:136 | `s[-n:]` is a suffix of `s` of length n, or all of `s` when `s` is shorter. |
| ReportNaming.CleanTimestampContents | VALUTAZIONE_DI_TOLLERANZA_DEL_RISCHIO.py:135 | The cleaned timestamp has exactly the separators `- : space .` removed. Every other character keeps its count. |
| ReportNaming.StandardClean | VALUTAZIONE_DI_TOLLERANZA_DEL_RISCHIO.py:25-135 | A timestamp in the record's "%Y-%m-%d %H:%M:%S.%f" format cleans to its twenty digits, in order. |
| ReportNaming.StandardUniqueId | VALUTAZIONE_DI_TOLLERANZA_DEL_RISCHIO.py:25-136 | For such a timestamp the identifier is the minutes, the seconds and the six microsecond digits. |
| ReportNaming.UniqueId | VALUTAZIONE_DI_TOLLERANZA_DEL_RISCHIO.py:136 | The identifier is the last ten characters of the cleaned timestamp, or all of it when shorter. |
| ReportNaming.CleanName | VALUTAZIONE_DI_TOLLERANZA_DEL_RISCHIO.py:137 | The name segment is a prefix of the name with spaces turned into underscores and dots dropped. It has at most 18 characters and no space or dot. |
| ReportNaming.Layout | VALUTAZIONE_DI_TOLLERANZA_DEL_RISCHIO.py:138-139 | "Rpt_" + segment + "_" + identifier, cut to 31 characters: exactly 31 when cut, the whole text otherwise. With a segment of at most 18 characters the cut never reaches the segment. The result is uncut exactly when segment and identifier together have at most 26 characters. |
| ReportNaming.SheetName | VALUTAZIONE_DI_TOLLERANZA_DEL_RISCHIO.py:135-139 | The sheet name starts with "Rpt_" followed by the whole name segment and "_". It is a prefix of the uncut name, with exactly 31 characters when cut. It equals the uncut name exactly when the segments fit. |
| ReportNaming.SheetNameKeepsForbidden | VALUTAZIONE_DI_TOLLERANZA_DEL_RISCHIO.py:137-171 | A forbidden sheet-name character among the first 18 of a client name without spaces or dots survives into the sheet name. |
| ReportNaming.RossiBianchi | VALUTAZIONE_DI_TOLLERANZA_DEL_RISCHIO.py:137-171 | The client name "Rossi/Bianchi" yields a sheet name containing '/'. |
| ReportNaming.SafeCleanName | VALUTAZIONE_DI_TOLLERANZA_DEL_RISCHIO.py:137 | The corrected segment drops the forbidden characters too, then keeps the 18-character cut: exactly 18 characters when cut, the whole stripped segment otherwise. It equals the original segment when the name has none. |
| ReportNaming.SafeSheetName | VALUTAZIONE_DI_TOLLERANZA_DEL_RISCHIO.py:135-139 | The corrected sheet name has the same layout and cut, built on the corrected segment: exactly 31 characters when cut, the whole corrected name otherwise. |
| ReportNaming.SafeAgrees | VALUTAZIONE_DI_TOLLERANZA_DEL_RISCHIO.py:137-139 | The correction changes nothing for names without forbidden characters. |
| ReportNaming.UniqueIdAllowed | VALUTAZIONE_DI_TOLLERANZA_DEL_RISCHIO.py:135-136 | For a timestamp whose only forbidden character is ':', the identifier has no forbidden character. |
| ReportNaming.SafeSheetNameAllowed | VALUTAZIONE_DI_TOLLERANZA_DEL_RISCHIO.py:135-171 | For such a timestamp, the corrected sheet name has no forbidden character, whatever the client name. |
| ReportNaming.StandardOnlyColon | VALUTAZIONE_DI_TOLLERANZA_DEL_RISCHIO.py:25 | A "%Y-%m-%d %H:%M:%S.%f" timestamp holds no forbidden sheet-name character other than ':'. |
| ReportNaming.StandardSafeSheetNameAllowed | VALUTAZIONE_DI_TOLLERANZA_DEL_RISCHIO.py:25-171 | For every timestamp the record produces, the corrected sheet name has no forbidden character, whatever the client name. |

## Left out

- The radar chart (`create_plot`, lines 106-130) is not modelled, because it is image rendering.
- The percentage column of the report sheet (lines 179-196) is not modelled, because it is floating-point formatting of the sub-scores. The maxima it divides by are the `MaxScores` of the model (`Catalog.CatalogMaxima`).
- The spreadsheet assembly and writing (lines 141-208 apart from the sheet name) is not modelled, because it is file I/O through pandas and openpyxl.
- The history file handling (lines 35-50, 221-229, 232-233, 325-328) is not modelled, because it is a pandas and file-system concern.
- The creation time (`datetime.now()`, line 25) is not modelled: the timestamp is a parameter. Its format is `ReportNaming.StandardTimestamp`, which only `ReportNaming.StandardClean`, `ReportNaming.StandardUniqueId`, `ReportNaming.StandardOnlyColon` and `ReportNaming.StandardSafeSheetNameAllowed` assume.
- The Streamlit widgets, messages, the default choices (first option, desired "3. Bilanciato") and `st.rerun` are not modelled. Answers and the desired profile are event parameters, limited to what the widgets offer.
- The download file name (line 335) is not modelled, because it is presentation.
- Text.TakeLast: requires n > 0, because Python reads `s[-0:]` as the whole string. The source only uses n = 10.

## Findings

| source | as written | input that shows it | evidently intended | confidence | as-written member | corrected member |
|---|---|---|---|---|---|---|
| VALUTAZIONE_DI_TOLLERANZA_DEL_RISCHIO.py:137-171 | The "safe" name segment drops only spaces and dots. Characters a spreadsheet sheet name may not contain (`\ * ? : / [ ]`) pass into the sheet name, and the writer rejects that name when the report sheet is created. | client name "Rossi/Bianchi", any timestamp | A sheet name the spreadsheet accepts, built from the name with those characters removed | likely; not executed | ReportNaming.RossiBianchi | ReportNaming.StandardSafeSheetNameAllowed |
