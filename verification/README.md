# Juriste 4.0 evaluation grid — a Dafny model

Juriste 4.0 is a browser tool. Trainers use it to assess participants of a
training in legal uses of generative AI. Each participant is scored on
twenty criteria grouped in five sections:

- Udemy course content (/10);
- digital tools (/10);
- understanding of AI (/10);
- time management (/10);
- a practical exercise (/20).

The sections add up to a global score out of 60. The global score gives one
of three levels: *Autonome* (45–60), *En progression* (30–44) and *À
accompagner étroitement* (0–29). The trainer also ticks blockage tags and
fills in an action plan. A dashboard then summarises every saved evaluation.

The model covers the scoring and aggregation engine behind the screens.
Each module follows one source file:

| module | file | what it holds |
|---|---|---|
| `Types` | `types.dfy` | the closed enumerations, the twenty criterion keys and the record shapes |
| `Constants` | `constants.dfy` | the maxima, the level bands and the five criterion tables |
| `ScoreInput` | `score_input.dfy` | the score input's change handler |
| `EvaluationForm` | `evaluation_form.dfy` | the form's derived values and state updates |
| `Dashboard` | `dashboard.dfy` | the three dashboard summaries, the detail toggle and the display order |
| `App` | `app.dfy` | the saved collection and the view switching |

`ScoreInput`'s handler parses the typed text, turns a failed parse into 0,
clamps the value to the criterion maximum and emits the result as a string.

`EvaluationForm` covers:

- the subtotals, the global score and the level;
- the single-key score update;
- the blockage-tag toggle;
- record construction on submit, followed by the reset.

`Wrappers` (`wrappers.dfy`) defines the `Option` type. The form's editable
state and the app state are immutable values. Every event handler is a pure
function from the old state to the new one.

## Model

| member | source | states |
|---|---|---|
| Types.AllBlockageTypes | types.ts:44-50 | there are exactly five blockage tags with pairwise distinct labels, in declaration order: "Technique", "Méthodologique", "Conceptuel", "Organisationnel", "Motivation / projection professionnelle" |
| Types.AllLevels | types.ts:52-56 | there are exactly three levels with distinct labels, in the order Autonome, En progression, À accompagner étroitement |
| Types.CriteriaOf | types.ts:9-42 | each score record has exactly four fields; a key belongs to a section's list exactly when the section declares it, and each key sits at its own position |
| Types.CriteriaPartitionKeys | types.ts:9-42 | every one of the twenty keys belongs to exactly one section, at exactly one position |
| Types.SectionKeyNamesDistinct | types.ts:9-42 | the four property names within each section are distinct |
| Constants.CriterionMax | constants.ts:18-51 | the maximum that the score input of a key accepts is positive, and it is the `max` of every table row whose key is that field's name (the form pairs each row's key with its max) |
| Constants.TableKeysMatchFields | constants.ts:18-51 | each criterion table has four rows; their keys are distinct and are, in order, the four fields of the matching score interface |
| Constants.TableMaximaSumToCategoryMax | constants.ts:5-9 | the row maxima of each table add up to its section maximum: 2+3+3+2, 2+3+3+2, 3+3+2+2, 3+3+2+2 and 5+5+5+5 give 10, 10, 10, 10 and 20 |
| Constants.CategoryMaximaSumToTotal | constants.ts:5-10 | the five section maxima add up to the total maximum of 60 |
| Constants.BandsPartitionScoreRange | constants.ts:13-15 | each band has min ≤ max; the top band ends at the total maximum; every score in [0, 60] is in exactly one band, and no band reaches outside [0, 60] |
| ScoreInput.ParseInt | components/ScoreInput.tsx:13 | `parseInt` yields NaN (None) exactly when no digit follows the optional sign; otherwise the value's sign is the written sign |
| ScoreInput.ShowNat | components/ScoreInput.tsx:16 | the emitted string is a non-empty run of decimal digits, with no leading zero unless the number is 0 |
| ScoreInput.DigitsValueOfShowNat | components/ScoreInput.tsx:16 | reading back the digits of the emitted string gives the number |
| ScoreInput.ParseIgnoresTail | components/ScoreInput.tsx:13 | `parseInt` reads a leading run of digits and ignores whatever non-digit text follows |
| ScoreInput.ParseShowNat | components/ScoreInput.tsx:16 | the decimal string of a non-negative integer parses back to that integer |
| ScoreInput.Clamp | components/ScoreInput.tsx:14-15 | for maxScore ≥ 0 the kept score lies in [0, maxScore]; NaN gives 0; a value already in range passes unchanged; a value above the maximum becomes the maximum; a negative value becomes 0 |
| ScoreInput.ClampIdempotent | components/ScoreInput.tsx:15 | clamping an already clamped score changes nothing |
| ScoreInput.HandleChange | components/ScoreInput.tsx:12-17 | the handler emits digits only, and the form's `parseInt` of them gives back exactly the clamped parse of what was typed |
| EvaluationForm.SumOverAppend | components/EvaluationForm.tsx:117 | summing the values of two key lists one after the other equals summing each and adding |
| EvaluationForm.AllCriteria | components/EvaluationForm.tsx:107-117 | the five sections together list the twenty keys, and every key appears |
| EvaluationForm.SumOverFour | components/EvaluationForm.tsx:107-115 | summing the values under four keys is adding the four values |
| EvaluationForm.SubtotalIsSumOfCriteria | components/EvaluationForm.tsx:107-115 | `Subtotal`, which adds up the fields of a section's record as the form's per-section sums and the displayed subtotal (line 235) do, equals the sum of the values stored under that section's four keys |
| EvaluationForm.GlobalScoreIsSumOfAllCriteria | components/EvaluationForm.tsx:117 | `GlobalScore`, the five subtotals added up, equals the sum of all twenty criterion values |
| EvaluationForm.SubtotalBounds | components/EvaluationForm.tsx:235 | when every value is within its table maximum, a subtotal lies in [0, section maximum] |
| EvaluationForm.GlobalScoreBounds | components/EvaluationForm.tsx:117 | when every value is within its table maximum, the global score lies in [0, 60] |
| EvaluationForm.Classify | components/EvaluationForm.tsx:120-126 | the level is the one whose band contains the total; a negative total gives the lowest level and a total above 60 the highest |
| EvaluationForm.ClassifyInBand | components/EvaluationForm.tsx:120-126 | every total in [0, 60] is given a level whose band contains it |
| EvaluationForm.ClassifyMonotone | components/EvaluationForm.tsx:120-126 | raising the total never lowers the level |
| EvaluationForm.ClassifyBandEdges | components/EvaluationForm.tsx:120-126 | 0 and 29 give À accompagner étroitement; 30 and 44 give En progression; 45 and 60 give Autonome |
| EvaluationForm.InitialForm | components/EvaluationForm.tsx:40-101 | the initial state has every score 0, no tag, an empty main blockage, an empty name, trainer, observations and action plan, and today's session date |
| EvaluationForm.AllZeroScoresDerive | components/EvaluationForm.tsx:102-103 | with every value 0, as in the initial and reset states, the global score is 0 and the level is À accompagner étroitement |
| EvaluationForm.SumOverZero | components/EvaluationForm.tsx:195-200 | after the reset, every list of keys sums to 0 |
| EvaluationForm.SetScore | components/EvaluationForm.tsx:145-157 | replacing one value changes that key only; every other key keeps its value and the other sections' records are unchanged |
| EvaluationForm.SetScoreMovesTotal | components/EvaluationForm.tsx:107-117 | replacing one value moves its section's subtotal and the global score by the difference and leaves the other subtotals alone |
| EvaluationForm.ScoreChange | components/EvaluationForm.tsx:138-162 | a score change sets exactly one key of one section; every other key, every other section and every non-score field is unchanged, and the global score moves by the difference |
| EvaluationForm.EnterScore | components/EvaluationForm.tsx:244-246 | typing into a criterion's input stores the clamped parse of the text against that criterion's table maximum; the other keys are untouched, so in-range scores stay in range; every non-score field (participant info, tags and main blockage, action plan, observations) is unchanged |
| EvaluationForm.Without | components/EvaluationForm.tsx:168 | filtering removes the tag; every other tag stays present exactly when it was present; a duplicate-free list stays duplicate-free |
| EvaluationForm.WithoutRemovesPosition | components/EvaluationForm.tsx:168 | in a duplicate-free list, removing a present tag drops exactly its position and keeps the other tags in order |
| EvaluationForm.WithoutAbsent | components/EvaluationForm.tsx:168 | filtering out an absent tag leaves the list as it was |
| EvaluationForm.ToggleBlockage | components/EvaluationForm.tsx:164-173 | the toggled tag's membership flips and the other tags' memberships are kept; an absent tag is appended at the end; no duplicate is ever introduced |
| EvaluationForm.ToggleTwiceAbsent | components/EvaluationForm.tsx:167-171 | toggling an absent tag twice restores the list exactly |
| EvaluationForm.AppendWithout | components/EvaluationForm.tsx:168-170 | appending an absent tag and then filtering it out gives back the list |
| EvaluationForm.ToggleTwicePresent | components/EvaluationForm.tsx:167-171 | toggling a present tag twice keeps the same tags but moves that tag to the end; the list is restored exactly only when the tag was already last |
| EvaluationForm.ToggleTwiceReorders | components/EvaluationForm.tsx:167-171 | toggling Technique twice in [Technique, Conceptuel] gives [Conceptuel, Technique] |
| EvaluationForm.BlockageTypeChange | components/EvaluationForm.tsx:164-173 | the blockage handler changes the tag list only; the main blockage, the scores and every other field are unchanged |
| EvaluationForm.InitialFormInvariant | components/EvaluationForm.tsx:46-101 | the initial state has every value within its maximum and no duplicate tag |
| EvaluationForm.FormActionsPreserveInvariant | components/EvaluationForm.tsx:138-173 | score entry and tag toggling keep every value within its maximum and keep the tags duplicate-free |
| EvaluationForm.Submit | components/EvaluationForm.tsx:175-203 | the submitted record's stored score and level are derived from its own score sets; the rest of the record carries the form's fields and the given id and time; the form returns to its initial state |
| EvaluationForm.SubmittedRecordWellFormed | components/EvaluationForm.tsx:177-191 | a record submitted from a maintained state has its score in [0, 60], a level whose band contains that score, and no duplicate tag |
| Dashboard.ToggleExpand | components/Dashboard.tsx:35-37 | the expanded record becomes none exactly when the pressed record was the expanded one; otherwise the pressed record is expanded |
| Dashboard.ToggleExpandTwice | components/Dashboard.tsx:35-37 | pressing the same record twice restores the state exactly when nothing or that record was expanded before |
| Dashboard.AverageOf | components/Dashboard.tsx:61-67 | a section's average times the number of records equals the section's total over all records; the entry carries the section's name and maximum |
| Dashboard.AverageScores | components/Dashboard.tsx:39-69 | no records give an empty chart; otherwise there are five entries in section order, each with its name, its maximum and the exact mean of its subtotals |
| Dashboard.CategoryTotalHeadFirst | components/Dashboard.tsx:48-59 | a section total over the records, accumulated as the loop does, equals the first record's subtotal plus the total over the rest |
| Dashboard.CategoryTotalBounds | components/Dashboard.tsx:48-59 | with values in range, a section total over n records lies in [0, n × section maximum] |
| Dashboard.AverageWithinMax | components/Dashboard.tsx:61-67 | with values in range, each section average lies in [0, its maximum] |
| Dashboard.AveragesIgnoreStoredScores | components/Dashboard.tsx:50-58 | the averages depend on the criterion values only, not on the stored global score or level |
| Dashboard.SameScoresSameTotal | components/Dashboard.tsx:50-58 | records with the same score sets give the same section totals |
| Dashboard.CountLevelExtremes | components/Dashboard.tsx:80-82 | a level's count is at most the number of records; it is 0 exactly when no record has the level, and all of them exactly when every record has it |
| Dashboard.LevelCountsSumToSize | components/Dashboard.tsx:74-82 | every record is counted at exactly one level, so the three counts add up to the number of records |
| Dashboard.LevelDistribution | components/Dashboard.tsx:71-89 | no records give an empty chart; otherwise there are three entries in level order, each with the level's label and the number of records stored at it |
| Dashboard.BlockageFrequency | components/Dashboard.tsx:91-107 | no records give an empty chart; otherwise there are five entries in tag order, each with the tag's label and its number of occurrences over all records' lists |
| Dashboard.OccurrencesZeroIffAbsent | components/Dashboard.tsx:98-100 | a tag occurs in a list at most as often as the list is long, and never exactly when it is absent |
| Dashboard.TagFrequencyZeroIffUntagged | components/Dashboard.tsx:97-101 | a tag's frequency is 0 exactly when no record's list holds it |
| Dashboard.CountTags | components/Dashboard.tsx:98-100 | one record's pass adds to each tag's count exactly the number of times the tag occurs in that record's list |
| Dashboard.OccurrencesSumToLength | components/Dashboard.tsx:97-101 | the occurrences of the five tags in a list add up to its length |
| Dashboard.FrequenciesSumToTagCount | components/Dashboard.tsx:97-101 | the five frequencies add up to the total length of all tag lists |
| Dashboard.OccurrencesWithoutDuplicates | components/Dashboard.tsx:97-101 | in a duplicate-free list, a tag occurs once if present and otherwise never |
| Dashboard.FrequencyCountsRecordsWhenDuplicateFree | components/Dashboard.tsx:97-101 | when every tag list is duplicate-free, as the form keeps it, a tag's frequency is the number of records that carry it |
| Dashboard.DuplicateTagCountedTwice | components/Dashboard.tsx:97-101 | a tag written twice in one record counts 2 although one record carries it |
| Dashboard.InsertByDate | components/Dashboard.tsx:242 | inserting into a newest-first list keeps it newest first, adds exactly the one record, and puts at the head either that record or the previous head |
| Dashboard.ConsNewestFirst | components/Dashboard.tsx:242 | a record at least as recent as the head of a newest-first list can go in front of it |
| Dashboard.DisplayOrder | components/Dashboard.tsx:242 | the displayed list is a permutation of the records in non-increasing submission time |
| Dashboard.DisplayOrderOfSorted | components/Dashboard.tsx:242 | a list already newest first is displayed unchanged, so records with equal times keep their order there |
| Dashboard.DisplayOrderOfTwo | components/Dashboard.tsx:242 | of two records, the newer comes first; with equal times they keep the order given |
| App.Initial | App.tsx:11-12 | the shell starts with no records and shows the form |
| App.SaveEvaluation | App.tsx:35-38 | saving appends the record at the end: the length grows by one, every earlier record is unchanged, and the dashboard is shown |
| App.CancelForm | App.tsx:40-42 | cancelling shows the dashboard and leaves the records unchanged |
| App.BackToForm | App.tsx:44-46 | going back shows the form and leaves the records unchanged |
| App.Navigate | App.tsx:56-71 | a navigation button shows its view whatever was shown, and leaves the records unchanged |
| App.Step | App.tsx:35-71 | every event leads to the same view whatever the state before it; only a save changes the records, by appending its record |
| App.RunAppendsSaved | App.tsx:36 | under the shell's own transitions, after any sequence of events the collection is the earlier records followed by the saved records, in saving order |
| App.EarlierRecordsKept | App.tsx:36 | no transition of the shell removes, edits or reorders an earlier record; without a save the collection is unchanged |
| App.RunView | App.tsx:37-65 | after a non-empty sequence of events the view is the one the last event leads to |
| App.RunKeepsConsistent | App.tsx:36 | when only records with derived score and level are saved, every stored record keeps them |
| App.SaveSubmissionKeepsConsistent | App.tsx:35-38 | saving the record the form submits keeps every stored record's score and level derived from its score sets |
| App.StoredLevelsAgreeWithScores | components/Dashboard.tsx:74-82 | in such a collection, counting records by stored level gives the same counts as classifying their criterion values afresh |

## Left out

- App.Step: any event can occur in any view. In the program, save and cancel exist only while the form is shown, and back only while the dashboard is shown (App.tsx:77-81). The run lemmas cover every sequence of events, so they also cover the sequences the program allows.

- Persistence to browser storage and JSON serialisation (App.tsx:15-33) are browser I/O. The model starts from the empty collection.
- PDF export (components/EvaluationForm.tsx:205-225, components/Dashboard.tsx:123-148) is an asynchronous call into an external library.
- Markup, styling, chart configuration and colour strings are presentation only. components/TextArea.tsx is entirely presentational. The `Input` component is not part of this model.
- The participant-info, main-blockage (components/EvaluationForm.tsx:355), observations and action-plan text handlers only copy the typed text into the state. They are not modelled separately; `Submit` carries their fields through.
- EvaluationForm.Submit accepts any form state. In the program the name, session-date and trainer inputs are marked `required` (components/EvaluationForm.tsx:276, 284, 292), so the browser refuses to submit while any of them is empty. The model therefore allows more submissions than the program does, and every lemma about `Submit` still holds for the ones the program allows.
- The form's state across views is not modelled. When the shell shows the dashboard, it unmounts the form component (App.tsx:77-81). Cancelling or navigating away therefore discards a half-filled form, and the next visit to the form starts from `InitialForm`. `AppState` holds no form state.
- Clock and identifiers are parameters. `Submit` takes the record id, its submission time and today's date from the caller instead of calling `Date.now()` and `toISOString`.
- Submission times are whole numbers, not ISO strings. `DisplayOrder` compares them directly instead of parsing dates.
- ScoreInput.ParseInt: leading whitespace and the other radix rules of `parseInt` are not modelled. It reads an optional sign and then the longest run of decimal digits, so "3.7" gives 3, as it does in the source. Scores are integers throughout.
- Averages are exact rationals (`real`), not IEEE-754 doubles. `AverageOf` states the average through `average × n = total`.
- React's scheduling is not modelled. That covers the effect that recomputes the score after each change and the memoised summaries. The shown global score and level are taken to be pure functions of the current scores, as `FormState.Score` and `FormState.Level`.
- Dashboard.DisplayOrder: the source sorts the props array in place with the stable `Array.prototype.sort` of ECMAScript 2019. The model is a pure, stable insertion sort. Its contract states the ordering and the permutation. The tie order (input order kept) is stated for two records and for already sorted lists (`DisplayOrderOfTwo`, `DisplayOrderOfSorted`), not for lists in general.
- App.RunAppendsSaved: leaves out the sort the dashboard runs in place on the shell's own array while rendering (components/Dashboard.tsx:242 on the array passed at App.tsx:80). In the program, each dashboard render keeps the earlier records as a multiset but reorders them newest first. After saves at times 1 and 2 the array is therefore [r2, r1], and a third save gives [r2, r1, r3]. That reordered array is also what gets persisted. `Dashboard.DisplayOrder` states what a render does to the array.
- App.EarlierRecordsKept: the prefix is kept only under the shell's transitions. The dashboard's in-place sort (see the line above) reorders earlier records while keeping them as a multiset.
- Tags outside the enumeration, which a corrupted store could supply, are not representable. The model uses the closed enumeration.
- EvaluationForm.ScoreChange requires the key to belong to the given section. In the source, any key the caller passes is written into the section's object. The only caller passes the table key of that same section.
- The source's `method` field of the time-management scores is called `workMethod` here because `method` is a Dafny keyword. `Criterion.KeyName` still gives "method". Likewise the criterion table's `label` column is called `title`.
- EvaluationForm.Classify: its contract states agreement with the band containing the total. That the band it picks contains the total is stated separately in `ClassifyInBand`.

## Notes on the source

- The dashboard counts blockage tags per occurrence, not per record. A record holding a tag twice adds 2 (`DuplicateTagCountedTwice`). The two counts agree on every list the form produces (`FrequencyCountsRecordsWhenDuplicateFree`).
- With no records, all three dashboard summaries are empty lists, not zero-filled entries.
- Toggling a tag twice restores the list only when the tag was absent or already last. Otherwise the tag moves to the end (`ToggleTwicePresent`, `ToggleTwiceReorders`).
- Pressing a record's expand button twice restores the state only when nothing or that same record was expanded. If another record was expanded, the second press collapses everything (`ToggleExpandTwice`).
- Level classification checks only the band minima, highest first. Any total is therefore given a level, including totals outside [0, 60], which the form cannot produce.
