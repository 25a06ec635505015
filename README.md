# Ortho-Insight intake and analysis workflow, modelled in Dafny

Ortho-Insight is a browser clinical-intake form. The clinician enters a
patient's age, gender, pain sites (clicked on a body chart), symptom
keywords, history, pain score, duration and complaint text. The form is
turned into a text prompt for a hosted language model, and the model's
differential-diagnosis answer is shown in a result panel.

This project models the application's own logic and proves what it
promises:

- `ListSet`: the list-as-set toggles the form applies to its three string
  lists. A toggle is `filter` to remove or append-at-end to add.
- `InputPanel`: the form as a class `IntakeForm` with the fields `data` and
  `customTag`. Each handler is a method tied to a pure list function. The
  module also holds the initial record, the age coercion and the submit gate.
- `BodyChart`: the 14-region catalog, the highlight rule, the click
  mapping and the "Selected:" caption.
- `GeminiService`: the exact prompt text built from the record, and the
  check that an empty reply is an error.
- `OutputPanel`: the projection from `(result, loading)` to the screen shown.
- `App`: the workflow state (`analysisResult`, `isAnalyzing`,
  `apiKeyMissing`). It has pure step functions, a trace semantics `Run`
  over user and network events, and a class `Session` whose methods are
  proved against the step functions.
- `Types`, `Text`, `Wrappers`: the shared records and enumerations,
  `join` and integer rendering, and `Option`/`Result`.

The model call is an oracle. `HandleAnalyze` returns the prompt it would
send. `CompleteAnalysis` receives the call's outcome as a parameter.
`GeminiService.Insight` takes the SDK reply and a `parse` function standing
for `JSON.parse` together with the model's schema.

Behaviours of the code that the model keeps as they are:

- The selections are ordered lists with append-at-end, not sets. That
  order appears in the prompt and in the caption.
- The pain score is a plain number in the record, bounded only by the
  slider. The model's record holds an `int`, and the 0..10 bound is part of
  `IntakeForm.Valid`.
- A failure does not itself clear the previous result: the result is
  cleared when the analysis starts and left untouched on failure.
  `App.FailureLeavesNoStaleResult` proves the two combined leave no stale
  result.
- The toggle would append an id that is not in the catalog. Only catalog
  ids reach it (`BodyChart.ClickKeepsWithinCatalog`).
- The model's system instruction is not part of the prompt text. It is
  passed as SDK configuration, which is left out.

## Model

| member | source | states |
|---|---|---|
| `ListSet.Remove` | components/InputPanel.tsx:39 | `filter(id => id !== x)` leaves no copy of `x`, keeps every other element present or absent as before, and never lengthens the list |
| `ListSet.Toggle` | components/InputPanel.tsx:35-41 | after a toggle `x` is present exactly when it was absent before; every other element keeps its presence |
| `ListSet.ToggleElements` | components/InputPanel.tsx:38-40 | as a set, a toggle removes `x` if present and adds it otherwise |
| `ListSet.ToggleNoDup` | components/InputPanel.tsx:38-40 | a toggle keeps a duplicate-free list duplicate-free: it appends only when absent and removes every copy |
| `ListSet.ToggleKeepsOthersInOrder` | components/InputPanel.tsx:36-41 | with `x` filtered out, the list before and after a toggle is the same list, so other elements keep presence, multiplicity and relative order |
| `ListSet.ToggleTwiceAbsent` | components/InputPanel.tsx:38-40 | toggling an absent item twice restores the list exactly |
| `ListSet.ToggleTwicePresent` | components/InputPanel.tsx:38-40 | toggling a present item twice keeps the same elements but moves the item to the end |
| `ListSet.ToggleParity` | components/InputPanel.tsx:38-40 | after `n` toggles of the same item it is present exactly when its initial presence agrees with `n` being even |
| `Text.JoinConcat` | services/geminiService.ts:56 | `join(', ')` keeps list order: joining `xs + ys` is joining `xs`, the separator, then joining `ys` |
| `Text.Join` | services/geminiService.ts:56 | `join(', ')`: the empty list gives the empty string, one element gives itself, otherwise the elements in order with the separator between neighbours (definition; its properties are `Text.JoinConcat` and the prompt and caption lemmas) |
| `Text.IntToString` | services/geminiService.ts:55 | `${n}` of an integer is non-empty, starts with `-` exactly when the integer is negative, and is decimal digits after that |
| `Text.IntToStringRoundTrip` | services/geminiService.ts:55 | the decimal rendering of an integer (negative ones too) reads back as the same integer |
| `Types.GenderLabel` | types.ts:1-4 | the string values "Male" and "Female" (definition; `Types.GenderLabelInjective` proves them distinct) |
| `Types.DurationLabel` | types.ts:6-10 | the string values "Acute (< 6 weeks)", "Subacute (6-12 weeks)" and "Chronic (> 12 weeks)" (definition; `Types.DurationLabelRoundTrip` proves each names its member) |
| `Types.DurationChoices` | types.ts:6-10 | the duration enumeration has exactly three distinct members, listed in declaration order (Acute, Subacute, Chronic) as the radio buttons show them |
| `Types.DurationLabelRoundTrip` | types.ts:6-10 | the three fixed duration labels are distinct, so each label names its own member |
| `Types.GenderLabelInjective` | types.ts:1-4 | the two gender values have distinct string values |
| `BodyChart.Catalog` | components/BodyChart.tsx:11-26 | the catalog holds exactly 14 regions with pairwise-distinct ids |
| `BodyChart.Markers` | components/BodyChart.tsx:43-59 | one marker per catalog region in catalog order, drawn selected exactly when its id is in the selection |
| `BodyChart.ClickedId` | components/BodyChart.tsx:48 | a click on a region hands over that region's id, a catalog id |
| `BodyChart.ClickFlipsOnlyClickedRegion` | components/BodyChart.tsx:44-48 | after a click, the clicked region's highlight flips and every other region's marker is unchanged |
| `BodyChart.ClickKeepsWithinCatalog` | components/BodyChart.tsx:48 | toggling a clicked id keeps a selection of catalog ids a selection of catalog ids |
| `BodyChart.SummaryLabel` | components/BodyChart.tsx:78 | the caption reads "Selected: None" for an empty selection |
| `BodyChart.SummaryListsSelection` | components/BodyChart.tsx:78 | for a non-empty selection the caption is the ids joined with ", " in selection order, so it names every selected id |
| `GeminiService.Prompt` | services/geminiService.ts:53-68 | the prompt opens with the "Patient Profile:" header and ends with the task block; the seven lines between are located by `GeminiService.PromptFieldsInOrder` |
| `GeminiService.FieldValues` | services/geminiService.ts:55-61 | one value per heading: age and gender, the three lists joined with ", ", the duration label, the score out of 10 and the complaint verbatim |
| `GeminiService.PromptFieldsInOrder` | services/geminiService.ts:53-68 | each of the seven field headings, followed by its rendered value and a line break, occurs in the prompt at an offset that grows strictly with the field's position: Age/Gender, Pain Site, Duration, VAS Pain Score, Symptom Keywords, Medical History, Chief Complaint Details |
| `GeminiService.PromptEmbedsScalars` | services/geminiService.ts:55-61 | the prompt contains "age / gender", the duration label, "score/10" and the complaint text verbatim |
| `GeminiService.PromptMentionsEveryListItem` | services/geminiService.ts:56-60 | every selected body part, symptom keyword and history item is a substring of the prompt |
| `GeminiService.EmptyListRendersEmpty` | services/geminiService.ts:56-60 | an empty body-part, keyword or history list makes its line the heading and the line break alone |
| `GeminiService.ResponseText` | services/geminiService.ts:81-84 | an absent or empty response text is the empty-response error; otherwise the text is passed on unchanged |
| `GeminiService.Insight` | services/geminiService.ts:81-91 | a thrown call is a request failure and an absent or empty reply an empty-response error; a non-empty reply gives the parsed result when it parses and a malformed-JSON error when it does not |
| `GeminiService.ExamplePromptMentionsEveryField` | services/geminiService.ts:53-61 | a sample intake's prompt contains "45", "Male", "Knee (R)", "Acute", "7", "Night Pain" and "sharp pain going upstairs" |
| `InputPanel.InitialData` | components/InputPanel.tsx:22-31 | the form starts at age 45, Male, score 5, Subacute, empty lists and empty complaint |
| `InputPanel.CoerceAge` | components/InputPanel.tsx:82 | an unparseable age becomes 0; any parsed integer is kept as is |
| `InputPanel.SubmitEnabled` | components/InputPanel.tsx:223 | the submit button is enabled exactly when no analysis is running and at least one body part is selected, the negation of its `disabled` condition (definition; used by `InputPanel.IntakeForm.Submit` and `App.Step`) |
| `InputPanel.AcceptsTag` | components/InputPanel.tsx:54 | `addCustomTag`'s guard: a non-empty tag not already a keyword, spaces-only tags included (definition; used by `InputPanel.WithCustomTag`) |
| `InputPanel.InitiallyDisabled` | components/InputPanel.tsx:223 | with the initial record the submit button is disabled, busy or not |
| `InputPanel.WithCustomTag` | components/InputPanel.tsx:53-61 | an acceptable tag is appended at the end with the rest unchanged; an empty or duplicate tag leaves the list as it was |
| `InputPanel.WithCustomTagElements` | components/InputPanel.tsx:53-61 | after adding, the keyword set is the old set plus the tag (unless empty), and no duplicate is introduced |
| `InputPanel.IntakeForm.constructor` | components/InputPanel.tsx:22-33 | the form starts with the initial record, an empty buffer, and its invariants established |
| `InputPanel.IntakeForm.ToggleBodyPart` | components/InputPanel.tsx:35-42 | only `selectedBodyParts` changes, to its toggle; the invariants hold and a catalog-only selection stays catalog-only |
| `InputPanel.IntakeForm.ClickRegion` | components/InputPanel.tsx:108 | a chart click toggles that region's id in the selection and keeps the selection within the catalog |
| `InputPanel.IntakeForm.ToggleTag` | components/InputPanel.tsx:44-51 | only `symptomKeywords` changes, to its toggle |
| `InputPanel.IntakeForm.ToggleHistory` | components/InputPanel.tsx:63-70 | only `history` changes, to its toggle |
| `InputPanel.IntakeForm.SetCustomTag` | components/InputPanel.tsx:187 | typing replaces the buffer and nothing else |
| `InputPanel.IntakeForm.AddCustomTag` | components/InputPanel.tsx:53-61 | an acceptable tag is appended and the buffer emptied; otherwise record and buffer are unchanged |
| `InputPanel.IntakeForm.SetAge` | components/InputPanel.tsx:82 | only `age` changes, to the coerced value |
| `InputPanel.IntakeForm.SetGender` | components/InputPanel.tsx:89-100 | only `gender` changes |
| `InputPanel.IntakeForm.SetPainScore` | components/InputPanel.tsx:128-133 | only `painScore` changes, to a slider value in 0..10 |
| `InputPanel.IntakeForm.SetDuration` | components/InputPanel.tsx:147-153 | only `duration` changes |
| `InputPanel.IntakeForm.SetComplaint` | components/InputPanel.tsx:116 | only `mainComplaint` changes |
| `InputPanel.IntakeForm.Submit` | components/InputPanel.tsx:222-223 | the record is handed on, by value, exactly when no analysis is running and a body part is selected |
| `OutputPanel.Render` | components/OutputPanel.tsx:10-112 | loading wins over any result; no result shows the empty state; a report has one card per diagnosis in order with only index 0 emphasised, a red-flag region exactly when the list is non-empty, and both checklists in source order |
| `OutputPanel.Badge` | components/OutputPanel.tsx:53 | the probability rendered by `${n}` followed by `%` (definition; `OutputPanel.BadgeShowsProbability` proves it reads back) |
| `OutputPanel.BadgeShowsProbability` | components/OutputPanel.tsx:53 | the badge is the probability followed by `%`, and reads back as that exact number, with no clamping |
| `OutputPanel.OnlyFirstEmphasized` | components/OutputPanel.tsx:44-51 | for a non-empty diagnosis list the set of emphasised cards is exactly `{0}` |
| `OutputPanel.ExampleRendering` | components/OutputPanel.tsx:41-110 | a sample reply shows one emphasised "60%" card, no red-flag region, one checkpoint and one workup item |
| `App.KeyPresent` | App.tsx:18 | the key counts as present when it is defined and not the empty string, the negation of `!API_KEY` (definition; used by `App.Begin`) |
| `App.Begin` | App.tsx:16-27 | a call is made exactly when the key is present; without it only `apiKeyMissing` is set; with it the result is cleared and busy is set before the prompt is sent |
| `App.Settle` | App.tsx:26-34 | on completion busy is cleared; success installs the result, failure leaves it as it was |
| `App.FailureLeavesNoStaleResult` | App.tsx:23-34 | a started analysis that fails ends with no result and busy false |
| `App.ClearDropsOnlyResult` | App.tsx:81-88 | clearing drops the result, makes no call and changes nothing else |
| `App.ClearOffered` | App.tsx:81 | the clear button is drawn only while a result is shown (definition; used by `App.Step`) |
| `App.Step` | App.tsx:16-34 | one event: a prompt, namely that press's prompt, is sent exactly for an enabled press with a key present; no event breaks "no result while running" |
| `App.Run` | App.tsx:16-34 | a run applies the events in order; it sends at most one prompt and settles at most one call per event |
| `App.MainScreen` | App.tsx:91-105 | the key-setup notice replaces the result panel exactly when `apiKeyMissing` holds |
| `App.RunKeepsConsistent` | App.tsx:23-34 | over any run of presses, replies and clears, no result is shown while an analysis runs |
| `App.KeyMissingIsPermanent` | App.tsx:14-19 | once `apiKeyMissing` is set it stays set, and the setup notice stays on screen, for every later run |
| `App.NoKeyNoCall` | App.tsx:18-21 | without a key no run ever sends a prompt or sets busy |
| `App.OneCallInFlight` | App.tsx:16-34 | prompts sent equal replies received plus the single outstanding call while busy, so a press during an analysis sends nothing |
| `App.FailedRunReenablesSubmit` | App.tsx:23-34 | a submitted case whose call fails sends exactly one prompt, ends with no result and busy false, and re-enables the submit button |
| `App.Session.constructor` | App.tsx:12-14 | the session starts with no result, not busy, and no missing-key notice |
| `App.Session.HandleAnalyze` | App.tsx:16-27 | the state and the prompt sent are those of `Begin`, and the invariant is kept |
| `App.Session.CompleteAnalysis` | App.tsx:26-34 | the state is that of `Settle`; after a failure no result is shown |
| `App.Session.ClearResults` | App.tsx:81-88 | only `analysisResult` changes, to none |

## Left out

- The SDK client, the response schema, the model id, the temperature and the system instruction (services/geminiService.ts:1-47, 51, 70-79). This is a foreign network call. Its outcome is the `Reply` parameter of `GeminiService.Insight` and the outcome parameter of `App.Session.CompleteAnalysis`.
- `JSON.parse` and the schema enforcement done by the hosted model. This is library behaviour, so it is the `parse` parameter of `GeminiService.Insight`.
- `parseInt` (components/InputPanel.tsx:82, 133). The age setter receives the parse result as an `Option<int>`. The slider setter receives a value in 0..10, the only values the range control produces.
- How the key is obtained. `App.tsx` tests `import.meta.env.VITE_API_KEY`, while the client is built from `process.env.API_KEY`, which vite.config.ts fills at build time. The model has one optional key, given to `App.Session` when it is created. A key is present when it is defined and not the empty string, as JavaScript's `!API_KEY` has it.
- Asynchrony and re-rendering. `handleAnalyze` is two steps. `CompleteAnalysis` requires a call in flight, since its continuation exists only after a start. In `App.Run` a reply arriving with nothing in flight is ignored. Edits made to the form during a call are not modelled: the prompt is fixed when the call starts.
- JSX, Tailwind classes, SVG coordinates and radii, icons, `alert` and `console.error`. These are presentation and console output.
- The fixed button lists `COMMON_TAGS` and `HISTORY_ITEMS` (components/InputPanel.tsx:11-19). They only decide which strings the buttons pass. The toggles are modelled for any string.
- `BodyPart` (types.ts:12-16). The modelled files declare it but never use it.
- Text.IntToString: renders every integer in plain decimal digits. JavaScript's `${n}` switches to exponent form for magnitudes of 10^21 and more (an age typed as 1 followed by 21 zeros reaches the prompt as "1e+21"), and numbers that large are doubles, not exact integers. The model covers integers below 10^21 in magnitude faithfully; above that, its prompt and badge text differ from the source's.
- OutputPanel.Render: does not model non-integer probabilities. The model's probability is an integer; the source does no arithmetic on it.
- OutputPanel.Render: does not model the `result.redFlags &&` guard for a missing list. In the model a result always carries its four lists.
