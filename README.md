# matsnap decision logic in Dafny

This project models the decision logic of matsnap, a haircut consultation web
app, and proves properties of it. A client uploads photos. The face is
classified into one of six shapes. The client answers a questionnaire. A
recommendation engine scores a catalog of haircuts, and the client picks and
submits some of them. A stylist dashboard then lists the submissions.

The model covers these parts:

- **Face-shape classifier** (`face_shape.dfy`, module `FaceShapeRules`). Five
  threshold rules over three face ratios, tried in order; the first that fires
  wins, and `oval` is the catch-all. The rules are also written as data
  (`RuleTable`), and the first-match reading of that table (`FirstMatch`) is
  the reference the classifier is proved against.
- **Recommendation engine** (`engine.dfy`, module `Engine`; properties in
  `engine_properties.dfy`; list operations in `ranking.dfy`).
  - Length normalisation and construction of the scoring input.
  - The scoring table, one term and one explanation fragment per rule.
  - The random jitter, the rounding to one decimal, and the explanation text.
  - `scoreHaircut` as an imperative method that accumulates the score and the
    reasons rule by rule.
  - The `getRecommendations` pipeline: map, keep `score > 0`, stable sort by
    descending score, `slice(0, topN)`.
- **Flow store** (`flow_store.dfy`). The client-side state machine as a
  class with one field per piece of state and one method per action. Each
  action is also a value of type `Action` with a pure `Apply`. The module
  also has the persisted snapshot (`partialize`).
- **Submission log** (`submissions.dfy`). Storage is a field holding an
  optional sequence. `addSubmission` prepends unless the id is already
  present, and `getSubmissionById` returns the first match.
- **Dashboard helpers** (`dashboard.dfy`). Relative-time text (`formatDate`),
  the status badge lookup with its `draft` fallback, and the row list: stored
  submissions first, then four demo rows.
- **Questionnaire form** (`questionnaire.dfy`). The vibe toggle, and the form
  as a class whose `Submit` validates in order and hands the answers to the
  flow store.
- Shared helpers:
  - `text.dfy`: `join`, printing an integer in decimal, `replace` with a
    one-character pattern.
  - `sequences.dfy`: distinctness.
  - `types.dfy`: the value types.

Numbers are exact: scores are `real`, times and counts are `int`. The one
random draw per catalog entry (`Math.random()`) is a parameter `rand` with
`0 <= rand < 1`, so every engine property holds for every draw.

Two details of the code that the model follows:

- The engine passes `answers.thinning` through unchanged
  (src/lib/recommendation/engine.ts:117). There is no default. The form
  never submits without a thinning level.
- The comment at src/lib/recommendation/engine.ts:96 says the jitter is
  ±0.3. The code's `(Math.random() - 0.5) * 0.6` gives [-0.3, 0.3):
  `Engine.Jitter` can be exactly -0.3 but never +0.3.

One observation about the code as written. The questionnaire form never
fills in `hairLength` (src/components/questions/QuestionnaireForm.tsx:69-74),
so the engine always scores the form's answers as "medium" length
(`Questionnaire.FormAnswersScoredAsMedium`).

## Model

| member | source | states |
|---|---|---|
| FaceShapeRules.RuleConditions | src/lib/mediapipe/face-shape.ts:10-23 | each entry of the rule table tests exactly the condition of the corresponding `if` |
| FaceShapeRules.RuleOrder | src/lib/mediapipe/face-shape.ts:10-26 | the table's first-match reading is the chain of its five rules in order, falling through to oval |
| FaceShapeRules.Classify | src/lib/mediapipe/face-shape.ts:11-26 | the guarded-return chain equals the first-match reading of the rule table |
| FaceShapeRules.ClassifyFaceShape | src/lib/mediapipe/face-shape.ts:3-27 | classifying metrics is the first-match reading over their three ratios |
| FaceShapeRules.LongFaceIsOblong | src/lib/mediapipe/face-shape.ts:11 | lw > 1.5 gives oblong whatever jc and fc are |
| FaceShapeRules.SquareExactly | src/lib/mediapipe/face-shape.ts:11-14 | square iff not above 1.5, 1.0 <= lw <= 1.35, jc >= 0.9 and fc >= 0.9 |
| FaceShapeRules.RoundBeforeHeart | src/lib/mediapipe/face-shape.ts:17-20 | (1.2, 0.8, 1.0) meets both the round and the heart bounds and yields round: first match wins |
| FaceShapeRules.DiamondExactly | src/lib/mediapipe/face-shape.ts:11-23 | diamond iff fc < 0.88, jc < 0.85 and none of the four earlier rules fires |
| FaceShapeRules.OvalExactly | src/lib/mediapipe/face-shape.ts:26 | oval iff no rule fires |
| FaceShapeRules.FirstMatchOval | src/lib/mediapipe/face-shape.ts:26 | over any table without an oval rule, the first-match reading is oval iff no rule fires |
| Engine.ToHairLength | src/lib/recommendation/engine.ts:14-27 | the result is one of the five lengths; a known length passes through, anything else (absent, empty, unknown) becomes "medium" |
| Engine.ToHairLengthIdempotent | src/lib/recommendation/engine.ts:22-27 | normalising a normalised length changes nothing |
| Engine.BuildInput | src/lib/recommendation/engine.ts:113-120 | the input's length is `toHairLength` of the answered length: a known length passes through, anything else becomes "medium"; every other field is passed through from the shape and the answers |
| Engine.MaintenanceScore | src/lib/recommendation/engine.ts:65-68 | points lie in [0, 1.5]; 1.5 iff the difference is 0; 0 iff it is at least 3 |
| Engine.MaintenanceScoreAntitone | src/lib/recommendation/engine.ts:68 | a larger difference never earns more points |
| Engine.VibeOverlap | src/lib/recommendation/engine.ts:82-84 | the shared tags are tags of the haircut that the client prefers, and every such tag is among them |
| Engine.VibeOverlapCounts | src/lib/recommendation/engine.ts:82-84 | each preferred tag is kept as often as the haircut lists it, and no other tag is kept |
| Engine.VibeOverlapAppend | src/lib/recommendation/engine.ts:82-84 | the filter works entry by entry, so the shared tags keep the order of the haircut's tags |
| Engine.Reasons | src/lib/recommendation/engine.ts:31-94 | at most six fragments, none of them empty |
| Engine.Jitter | src/lib/recommendation/engine.ts:96-97 | for a draw in [0, 1) the jitter lies in [-0.3, 0.3) |
| Engine.RoundTenth | src/lib/recommendation/engine.ts:102 | the result is within 0.05 of the input (halves round up) and is a whole number of tenths |
| Engine.RoundTenthMonotone | src/lib/recommendation/engine.ts:102 | rounding keeps order |
| Engine.RoundTenthPositive | src/lib/recommendation/engine.ts:102 | a rounded score is positive iff the unrounded one is at least 0.05 |
| Engine.FinalScore | src/lib/recommendation/engine.ts:96-102 | the final score is within 0.35 of the raw score and a whole number of tenths |
| Engine.Explanation | src/lib/recommendation/engine.ts:103 | the explanation is empty iff no fragment applies |
| Engine.FaceShapeRule | src/lib/recommendation/engine.ts:33-43 | the face-shape rules add +3 for a match and -5 for an avoided shape, and push the catalog's non-empty justification for a match |
| Engine.HairTypeRule | src/lib/recommendation/engine.ts:45-54 | the hair-type rules add +2 for a match and -5 for an avoided type, and push the hair-type fragment for a match |
| Engine.LengthRule | src/lib/recommendation/engine.ts:56-62 | the length rule adds +2.5 and pushes its fragment for a compatible length, and subtracts 4 otherwise |
| Engine.MaintenanceRule | src/lib/recommendation/engine.ts:64-79 | the maintenance rule adds max(0, 1.5 - diff * 0.5) and pushes the bucket fragment when the difference is at most 1 |
| Engine.VibeRule | src/lib/recommendation/engine.ts:81-88 | the vibe rule adds 0.75 per shared tag and pushes the joined tags when there is at least one |
| Engine.ThinningRule | src/lib/recommendation/engine.ts:90-94 | the thinning rule adds 1.5 and pushes its fragment when thinning is not "none" and the cut is tagged thinning-friendly |
| Engine.ApplyRules | src/lib/recommendation/engine.ts:30-94 | the six rules applied in order from a zero score and no reasons give the raw score and the fragments in rule order |
| Engine.ScoreHaircut | src/lib/recommendation/engine.ts:29-105 | the rule-by-rule accumulation returns the haircut, the rounded raw score plus jitter, and the reasons in rule order joined by spaces: exactly `Scored`, whose score is within 0.35 of the raw score |
| Engine.Scored | src/lib/recommendation/engine.ts:96-104 | the scored entry keeps its haircut, its score is a whole number of tenths within 0.35 of the raw score, and the explanation is empty iff no rule gave a reason; `EngineProperties.KeptExactly` and `EngineProperties.JitterKeepsClearGaps` build on it |
| Engine.ScoreAll | src/lib/recommendation/engine.ts:122-123 | entry k of the mapped list is catalog entry k scored with draw k |
| EngineProperties.ReasonsAgreeWithScore | src/lib/recommendation/engine.ts:33-94 | each fragment is present iff its rule earns points; the face-shape fragment is present iff the shape matches and the catalog text for it is non-empty, and is then exactly that text |
| EngineProperties.MaintenanceBucketRanges | src/lib/recommendation/engine.ts:71-78 | bucket low iff preference <= 2, high iff >= 4, medium iff 3 |
| EngineProperties.MaintenanceMonotone | src/lib/recommendation/engine.ts:64-69 | with everything else fixed, moving the maintenance level further from the preference never raises the raw or the final score, for any draw |
| EngineProperties.KeptExactly | src/lib/recommendation/engine.ts:97-124 | an entry passes `score > 0` iff raw score plus jitter is at least 0.05 |
| EngineProperties.JitterKeepsClearGaps | src/lib/recommendation/engine.ts:96-102 | a raw gap above 0.6 is never reversed by any two draws, and a gap of 0.7 or more never becomes a tie |
| EngineProperties.AvoidedScoresNegative | src/lib/recommendation/engine.ts:33-102 | an avoided face shape with no other rule in favour always gives a negative final score |
| EngineProperties.AllRulesMatchScore | src/lib/recommendation/engine.ts:31-102 | the all-match profile scores 3 + 2 + 2.5 + 1.5 + 0.75 = 9.75 raw and 9.8 with a zero jitter |
| EngineProperties.AllReasonsInOrder | src/lib/recommendation/engine.ts:31-94 | when all rules but thinning fire, the fragments are the face text, hair type, length, maintenance and vibe fragments in that order |
| EngineProperties.AllSixReasonsInOrder | src/lib/recommendation/engine.ts:31-94 | when every rule fires, the same five fragments come in that order, followed by the thinning fragment |
| EngineProperties.HairTypeFragmentPlain | src/lib/recommendation/engine.ts:48 | a hair type without an underscore is quoted unchanged |
| EngineProperties.HairTypeFragmentUnderscore | src/lib/recommendation/engine.ts:48 | only the first underscore of the hair type becomes a space |
| EngineProperties.VibeFragmentSingle | src/lib/recommendation/engine.ts:87 | one shared vibe is quoted without separator |
| EngineProperties.SquareFaceScenario | src/lib/recommendation/engine.ts:33-94 | the same haircut for a square face scores 6.75 raw |
| Engine.Ranked | src/lib/recommendation/engine.ts:122-125 | the ranked list holds exactly the positive scored entries, as a multiset, in non-increasing score order; stability is `EngineProperties.RecommendationsStable` |
| Engine.GetRecommendations | src/lib/recommendation/engine.ts:107-127 | the result is a prefix of the ranked list whose length is min(topN, its length), or the JS `slice` length for a negative topN; the `EngineProperties.Recommendations*` lemmas below state the rest |
| EngineProperties.RecommendationsPositiveAndSorted | src/lib/recommendation/engine.ts:122-126 | every recommendation scores above 0, and scores never increase along the list |
| EngineProperties.RecommendationsLength | src/lib/recommendation/engine.ts:122-126 | the length is min(topN, number of positive entries), or the JS `slice` length for a negative topN |
| EngineProperties.EmptyLibraryNoRecommendations | src/lib/recommendation/engine.ts:122-126 | an empty catalog gives an empty result |
| EngineProperties.RecommendationsWithinCatalog | src/lib/recommendation/engine.ts:122-126 | no scored entry occurs in the result more often than in the mapped catalog |
| EngineProperties.RecommendationsFromCatalog | src/lib/recommendation/engine.ts:122-124 | each recommendation is some catalog entry scored with its own draw |
| EngineProperties.RecommendationsDistinct | src/lib/recommendation/engine.ts:122-126 | a catalog without repeated entries gives no repeated haircut in the result |
| EngineProperties.RecommendationsAreTopN | src/lib/recommendation/engine.ts:124-126 | the result and the positive entries left out together are all positive entries, and every chosen entry scores at least as high as every one left out |
| EngineProperties.RecommendationsStable | src/lib/recommendation/engine.ts:124-125 | for every positive score, the recommended entries with that score are a prefix, in catalog order, of the catalog's entries with that score |
| EngineProperties.AvoidedNeverRecommended | src/lib/recommendation/engine.ts:107-127 | a haircut as in AvoidedScoresNegative is never recommended, whatever the draws |
| Ranking.Positive | src/lib/recommendation/engine.ts:124 | every kept entry has a positive score |
| Ranking.PositiveKeeps | src/lib/recommendation/engine.ts:124 | the filter keeps each positive entry as often as it occurs and drops every other one; the order of tying entries is kept |
| Ranking.SortDescCorrect | src/lib/recommendation/engine.ts:125 | the sort is a permutation, sorted by descending score, and stable: for each score the tying entries keep their order |
| Ranking.Slice | src/lib/recommendation/engine.ts:126 | `slice(0, n)` is a prefix whose length is min(n, len) for n >= 0 and max(len + n, 0) otherwise |
| Ranking.ByScoreOfPrefix | src/lib/recommendation/engine.ts:126 | truncating keeps, for each score, a prefix of the tying entries |
| Ranking.InsertPermutes | src/lib/recommendation/engine.ts:125 | inserting adds exactly the one entry and keeps every other one |
| Ranking.InsertByScore | src/lib/recommendation/engine.ts:125 | inserting an entry puts it ahead of the entries that tie with it and keeps their order |
| Ranking.InsertSorted | src/lib/recommendation/engine.ts:125 | inserting into a sorted list keeps it sorted |
| Ranking.TopPositiveAndSorted | src/lib/recommendation/engine.ts:124-126 | filter, sort and slice give positive entries in descending score order |
| Ranking.TopWithin | src/lib/recommendation/engine.ts:124-126 | no entry is selected more often than it occurs in the input |
| Ranking.TopAreBest | src/lib/recommendation/engine.ts:124-126 | the selected entries and the positive ones left out make up all positive entries, and no entry left out scores higher than a selected one |
| Ranking.TopStable | src/lib/recommendation/engine.ts:124-126 | for a positive score, the selected entries with that score are the first input entries with that score, in input order |
| Ranking.TopDistinctHaircuts | src/lib/recommendation/engine.ts:124-126 | entries for pairwise different haircuts stay for pairwise different haircuts after filtering, sorting and slicing |
| Text.Join | src/lib/recommendation/engine.ts:103 | joining no parts gives ""; the length is the parts' total plus one separator between neighbours; the first part comes first |
| Text.JoinSnoc | src/lib/recommendation/engine.ts:103 | joining one more part appends the separator and that part |
| Text.ReplaceFirst | src/lib/recommendation/engine.ts:48 | only the first occurrence of the pattern character is replaced; every other character is kept |
| Text.ReplaceFirstAbsent | src/lib/recommendation/engine.ts:48 | with no occurrence nothing changes |
| Text.ReplaceFirstSplit | src/lib/recommendation/engine.ts:48 | the text before the first occurrence and the text after it are kept as they are |
| Text.NatToString | src/app/stylist/dashboard/page.tsx:80 | an integer prints as at least one decimal digit with no leading zero |
| Text.ParseNatToString | src/app/stylist/dashboard/page.tsx:80-84 | reading the printed digits back gives the number |
| Text.NatToStringInjective | src/app/stylist/dashboard/page.tsx:80-84 | distinct counts print as distinct text |
| FlowStore.Apply | src/stores/flow-store.ts:66-88 | reset gives the initial state; a photo action sets photosUploaded and the selfie, a scan also stores its metrics and shape; every other action sets only its own field (answers, recommendations, selection, submission id or one preview image) and keeps photosUploaded, the selfie, the metrics, the shape and every other field; `FlowStore.ApplyStep`, `FlowStore.ApplyKeepsConsistent` and `FlowStore.PreviewImageKeepsOthers` state the step and the invariant |
| FlowStore.Initial | src/stores/flow-store.ts:48-59 | step 1, nothing uploaded, every optional field null, every list and the preview map empty |
| FlowStore.Partialize | src/stores/flow-store.ts:92-97 | the snapshot has no preview images and no selfie, and equals the state in every other field |
| FlowStore.InitialConsistent | src/stores/flow-store.ts:48-59 | the initial state satisfies the store invariant |
| FlowStore.ApplyKeepsConsistent | src/stores/flow-store.ts:66-88 | every action keeps the invariant: step in {1, 2, 3, 5}, shape stored iff metrics are, shape or selfie only once photos are uploaded |
| FlowStore.RunKeepsConsistent | src/stores/flow-store.ts:61-97 | every state reachable by a sequence of actions, and its snapshot, keep the invariant |
| FlowStore.RunEndingInReset | src/stores/flow-store.ts:88 | any sequence of actions ending in a reset leaves the initial state |
| FlowStore.ApplyStep | src/stores/flow-store.ts:66-88 | the step after each action: 2, 2, 3, 3, unchanged, 5, unchanged, 1 |
| FlowStore.PreviewImageKeepsOthers | src/stores/flow-store.ts:78-81 | the new image is stored under its id, every other entry is kept, and only that key can be added |
| FlowStore.PreviewImageNotPersisted | src/stores/flow-store.ts:78-97 | adding a preview image does not change the persisted snapshot |
| FlowStore.PartializeIdempotent | src/stores/flow-store.ts:92-97 | the snapshot of a snapshot is the snapshot |
| FlowStore.PartializeInitial | src/stores/flow-store.ts:48-97 | the snapshot of the initial state is the initial state |
| FlowStore.PartializeKeepsConsistent | src/stores/flow-store.ts:92-97 | a snapshot of a consistent state is consistent |
| FlowStore.ResetForgets | src/stores/flow-store.ts:88 | reset gives the initial state whatever the state before |
| FlowStore.Store.constructor | src/stores/flow-store.ts:61-64 | a new store holds the initial state and satisfies the invariant |
| FlowStore.Store.SetPhotosComplete | src/stores/flow-store.ts:66-67 | sets photosUploaded, the selfie and step 2; every other field is unchanged |
| FlowStore.Store.SetScanData | src/stores/flow-store.ts:69-70 | sets selfie, metrics, shape, photosUploaded and step 2; every other field is unchanged |
| FlowStore.Store.SetQuestionnaireAnswers | src/stores/flow-store.ts:72-73 | sets the answers and step 3; every other field is unchanged |
| FlowStore.Store.SetRecommendations | src/stores/flow-store.ts:75-76 | sets the recommendations and step 3; every other field is unchanged |
| FlowStore.Store.SetPreviewImage | src/stores/flow-store.ts:78-81 | adds one preview image; every other field is unchanged |
| FlowStore.Store.SetSelectedHaircuts | src/stores/flow-store.ts:83-84 | sets the selection and step 5; every other field is unchanged |
| FlowStore.Store.SetSubmissionId | src/stores/flow-store.ts:86 | sets the submission id and leaves the step as it was |
| FlowStore.Store.ResetAll | src/stores/flow-store.ts:88 | restores exactly the initial state |
| Submissions.FirstWithId | src/lib/submissions.ts:39 | the position of the first entry with the id, with no such entry before it; the length of the list iff there is none |
| Submissions.FindById | src/lib/submissions.ts:38-40 | null iff no entry has the id; otherwise the first entry with it |
| Submissions.Added | src/lib/submissions.ts:30-36 | the id is present afterwards, the list grows by one only for a new id, and the old list is kept at its end; `Submissions.AddedShape`, `Submissions.AddedKeepsUniqueIds` and `Submissions.AddedIdempotent` state the rest |
| Submissions.AddedShape | src/lib/submissions.ts:30-36 | a duplicate id leaves the list unchanged; otherwise the submission is first, followed by the old list, one longer |
| Submissions.AddedKeepsUniqueIds | src/lib/submissions.ts:30-36 | unique ids stay unique |
| Submissions.FindAfterAdd | src/lib/submissions.ts:30-40 | after adding, the id is found; for a new id it finds the added submission |
| Submissions.FindOtherAfterAdd | src/lib/submissions.ts:30-40 | adding does not change what any other id finds |
| Submissions.AddedIdempotent | src/lib/submissions.ts:33-34 | adding the same submission twice is adding it once |
| Submissions.SubmissionLog.Submissions | src/lib/submissions.ts:20-28 | absent storage reads as the empty list, present storage as its list |
| Submissions.SubmissionLog.constructor | src/lib/submissions.ts:21-24 | a fresh log has nothing stored and reads as empty |
| Submissions.SubmissionLog.AddSubmission | src/lib/submissions.ts:30-36 | a duplicate id leaves storage untouched; otherwise storage holds the submission followed by the old list |
| Submissions.SubmissionLog.GetSubmissionById | src/lib/submissions.ts:38-40 | null iff no stored entry has the id; otherwise the first stored entry with that id |
| Dashboard.Plural | src/app/stylist/dashboard/page.tsx:82-84 | the suffix is "s" iff the count is not 1 |
| Dashboard.NestedFloors | src/app/stylist/dashboard/page.tsx:78-83 | flooring by minutes then hours then days equals flooring by the whole hour and day lengths in ms |
| Dashboard.FormatDate | src/app/stylist/dashboard/page.tsx:76-85 | "Just now" iff the difference is under 60000 ms; whole minutes (1..59) below an hour, whole hours (1..23) below a day, whole days after; singular iff the count is 1; an unparsable date gives "NaN days ago" |
| Dashboard.FormatDateHours | src/app/stylist/dashboard/page.tsx:82 | exactly one hour reads "1 hour ago", two hours "2 hours ago" |
| Dashboard.FutureIsJustNow | src/app/stylist/dashboard/page.tsx:77-79 | a future date, or one less than a minute ago, reads "Just now" |
| Dashboard.StatusMap | src/app/stylist/dashboard/page.tsx:68-74 | exactly the five statuses draft, photos_uploaded, questions_answered, styles_recommended and confirmed have badges, draft labelled "Draft" and confirmed "Confirmed"; `Dashboard.StatusLabels` gives all five labels |
| Dashboard.StatusFor | src/app/stylist/dashboard/page.tsx:155 | a known status gets its own badge, any other the draft badge labelled "Draft" |
| Dashboard.StatusLabels | src/app/stylist/dashboard/page.tsx:68-74 | the five known labels, and "Draft" for an unknown status |
| Dashboard.RealRow | src/app/stylist/dashboard/page.tsx:98-105 | id, name, email and status are copied; an unparsable date reads "NaN days ago" and one less than a minute old "Just now"; `Dashboard.FormatDate` states the other cases |
| Dashboard.RealRows | src/app/stylist/dashboard/page.tsx:99-105 | one row per stored submission in stored order, its date turned into relative text |
| Dashboard.AllSubmissions | src/app/stylist/dashboard/page.tsx:98-113 | the stored rows in order, each with the submission's id, name, email and status and its date as `formatDate` text, then exactly the four demo rows |
| Dashboard.ConfirmedRowsShowConfirmed | src/app/stylist/dashboard/page.tsx:155 | a stored submission with status "confirmed" shows the "Confirmed" badge |
| Questionnaire.RemoveAll | src/components/questions/QuestionnaireForm.tsx:50 | every occurrence of the vibe is gone, and every other vibe is kept as often as it occurred |
| Questionnaire.ToggleVibe | src/components/questions/QuestionnaireForm.tsx:48-52 | the vibe is selected afterwards iff it was not before; other vibes keep their counts; an unselected vibe is appended at the end |
| Questionnaire.RemoveAbsent | src/components/questions/QuestionnaireForm.tsx:50 | removing an absent vibe changes nothing |
| Questionnaire.RemoveAppend | src/components/questions/QuestionnaireForm.tsx:50 | removal distributes over concatenation |
| Questionnaire.ToggleTwiceRestores | src/components/questions/QuestionnaireForm.tsx:48-52 | toggling an unselected vibe twice restores the selection |
| Questionnaire.ToggleKeepsNoDuplicates | src/components/questions/QuestionnaireForm.tsx:48-52 | toggling keeps a selection free of repeats |
| Sequences.DistinctIffCounts | src/components/questions/QuestionnaireForm.tsx:48-52 | a list is free of repeats iff each value occurs at most once |
| Questionnaire.FirstValidationError | src/components/questions/QuestionnaireForm.tsx:54-66 | no error iff hair type, thinning and at least one vibe are given; otherwise the message of the first missing one, in that order |
| Questionnaire.BuildAnswers | src/components/questions/QuestionnaireForm.tsx:69-74 | the answers carry the hair type, thinning, maintenance level and vibes from the form and leave every optional field unset; `Questionnaire.FormAnswersScoredAsMedium` follows |
| Questionnaire.FormAnswersScoredAsMedium | src/components/questions/QuestionnaireForm.tsx:69-74 | answers from the form always reach the engine with length "medium" |
| Questionnaire.Form.constructor | src/components/questions/QuestionnaireForm.tsx:42-46 | nothing selected, maintenance 3, no error |
| Questionnaire.Form.SelectHairType | src/components/questions/QuestionnaireForm.tsx:89 | sets the hair type and nothing else |
| Questionnaire.Form.SelectThinning | src/components/questions/QuestionnaireForm.tsx:111 | sets the thinning level and nothing else |
| Questionnaire.Form.SetMaintenance | src/components/questions/QuestionnaireForm.tsx:131-136 | sets a level from 1 to 5 and nothing else |
| Questionnaire.Form.ToggleVibeChip | src/components/questions/QuestionnaireForm.tsx:48-52 | the selection becomes its toggle and nothing else changes |
| Questionnaire.Form.Submit | src/components/questions/QuestionnaireForm.tsx:54-78 | the error becomes the first failing check; on failure the store is untouched; on success the error is cleared and the store gets answers built from the current selections |

## Left out

- Floating point: scores, ratios and the jitter are exact reals. IEEE-754 rounding of sums such as 0.75 * 3 + 0.6 * x is not modelled. It could move a score that sits exactly on a rounding boundary by one tenth.
- Randomness: `Math.random()` is the parameter `rand`, one per catalog entry. The random example-image pick on result cards is not modelled.
- Engine.GetRecommendations: the default `topN = 6` is not modelled separately, since `topN` is always an argument. Its properties are stated by the `EngineProperties.Recommendations*` lemmas.
- A haircut record without `lengthCompatibility` makes the source throw a TypeError. Here the field is required, so that case cannot arise.
- `whyItWorks`, `STATUS_MAP` and other records are maps. JavaScript prototype keys such as "constructor" are not modelled. For `STATUS_MAP` such a key would yield an inherited function instead of the draft badge.
- Storage: localStorage, JSON encoding and the `typeof window` check are not modelled. An absent or unreadable entry is `stored == None`. A stored JSON value that is not an array is not modelled.
- The zustand `persist` middleware is modelled only through `partialize`. Rehydration and merging of a stored snapshot into the store are left out.
- Time: `Date.now()` is the parameter `now`. Parsing the ISO date text is the function parameter `parse`, where `None` stands for an invalid date (NaN).
- Number printing: counts print as plain decimal digits. JavaScript's exponent notation for numbers of 1e21 and above is not modelled.
- FlowStore.Store.SetPhotosComplete and the other `Store` setters (all but `ResetAll`) require `Valid()`. This is the store invariant that the constructor establishes and every method keeps. The source states no such precondition, but every store reachable through the constructor and the methods satisfies it.
- Questionnaire.Form.SetMaintenance: requires a level from 1 to 5, which is what the range input (min 1, max 5) produces. `Number(e.target.value)` parsing is not modelled.
- Navigation (`router.push`, `router.replace`), React state and rendering, the dashboard's submission count line and all styling are left out.
- Face landmark detection, camera capture, the metrics computation (square roots and divisions over landmarks) and the preview-image API are left out. The classifier takes the three ratios as inputs.
- The hair-type and thinning values are typed unions in the source and plain strings here. The form only offers non-empty values, and `Questionnaire.Truthy` treats an empty string as missing, as `!value` does.
