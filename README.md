# IPSS self-assessment form — a Dafny model

The repository is a one-page International Prostate Symptom Score (IPSS) questionnaire. Its
top-level form component keeps the contact fields, the seven answers, an optional
quality-of-life value, the consent flag and the lifecycle of one submission. From these it
derives a live total and a submit gate. On submit it posts a multipart body and shows a
greeting or an error. A badge component maps a total to a severity tier.

This project models that logic:

- `Scoring` (`Scoring.dfy`): the fixed question list `QUESTIONS` and the `total` fold, in
  which a missing answer counts as 0.
- `Validation` (`Validation.dfy`): `validName`, `validEmail`, `allAnswered` and `canSubmit`.
  The email check is modelled by what its regular expression means, not by a regex engine.
- `Submission` (`Submission.dfy`): the request body as a list of (name, value) entries; the
  loop-by-loop method that builds it; what the endpoint reads back from it; the endpoint's
  three possible replies; and the messages shown for them.
- `Form` (`Form.dfy`): the component's state as a class `FormController`, with its setters,
  `onChangeAnswer` and `handleSubmit`. `handleSubmit` is split at its `await`:
  `BeginSubmit` runs the guard, turns `loading` on, clears both messages and builds the body;
  `FinishSubmit` applies the reply and turns `loading` off. Two values are captured at
  submit time, as the source's closure captures them: the name the greeting uses, and the
  local total that the recorded total falls back to when the reply has none.
  `HandleSubmit` runs both halves with no edit in between.
- `ScoreBadge` (`ScoreBadge.dfy`): the tier thresholds and the label/colour pair.
- `Text` (`Text.dfy`): the JavaScript string built-ins the form uses (`trim`, `split(' ')[0]`,
  `String(n)`), and a decimal reader that serves as the inverse of `String(n)`.
- `Wrappers` (`Wrappers.dfy`): `Option`, standing for JavaScript's `undefined`/`null` and `''`.
  The reply's `total`, whose `undefined` and `null` print differently, has its own
  three-case type `Submission.ReplyTotal`.

Inputs the form reads from its environment are parameters. The reply of `fetch` is a
`Response` value. The query string is a `map<string, string>`, and the page address is a
string.

The page states ranges that its code does not enforce. The model follows the code:

- The score legend (src/App.tsx:217, 221-223) reads 0–35, with 0–7 Mild, 8–19 Moderate and
  20–35 Severe. `ScoreBadge` itself classifies every number: Mild for every total below 8,
  negatives included, and Severe for every total from 20 up, with no cap at 35.
- The quality-of-life hint (src/App.tsx:165-166) reads 0–6, and the change handler stores
  any number typed in. The code never checks it. The browser's own `min`/`max` check on
  the number input stops a submission outside 0–6 or with a fraction. That check is not
  part of the model (see "Left out").

Other behaviour of the code that the model keeps:

- `onChangeAnswer` (src/App.tsx:55-57) accepts any key. A key outside `q1`..`q7` is stored
  but never counted. This is a property of the function only: the page never calls it.
  The question cards use the same update inline (src/App.tsx:159), and only ever with a
  question's own key.
- The greeting uses the text before the first space of the untrimmed name, so a name that
  starts with a space greets nobody.
- A failed submission leaves a previously recorded total in place.

## Model

| member | source | states |
|---|---|---|
| `Text.TrimStartSpec` | src/App.tsx:50 | dropping leading whitespace keeps a suffix that starts with non-whitespace; everything dropped was whitespace |
| `Text.TrimEndSpec` | src/App.tsx:50 | dropping trailing whitespace keeps a prefix that ends with non-whitespace; everything dropped was whitespace |
| `Text.TrimSpec` | src/App.tsx:50 | `trim` keeps the contiguous span between the leading and trailing whitespace, and the span neither starts nor ends with whitespace |
| `Text.Trim` | src/App.tsx:50 | no contract of its own; `Text.TrimSpec` characterises it |
| `Text.FirstWord` | src/App.tsx:88 | `split(' ')[0]` is the prefix before the first space, has no space in it, and is the whole string when there is no space |
| `Text.NatToString` | src/App.tsx:80 | the decimal numeral of a natural number is non-empty, all digits, with no leading zero |
| `Text.IntToString` | src/App.tsx:80-81 | `String(n)` starts with `-` exactly when `n < 0`; after the sign there is at least one digit, every character is a digit, and the first is `0` only when it is the only one |
| `Text.NatToStringRoundTrip` | src/App.tsx:80 | reading back the numeral of `n` gives `n` |
| `Text.IntToStringRoundTrip` | src/App.tsx:80-81 | reading back `String(n)` gives `n` for every integer |
| `Text.IntToStringInjective` | src/App.tsx:88 | different integers print differently |
| `Scoring.AllAnswered` | src/App.tsx:52 | `allAnswered` holds exactly when all of `q1`..`q7` are present |
| `Scoring.Accumulate` | src/App.tsx:45 | no contract of its own: the `reduce` callback `acc + (answers[q.key] ?? 0)`, folded left; `Scoring.AccumulateShift` characterises it |
| `Scoring.Total` | src/App.tsx:45-47 | no contract of its own; `Scoring.TotalIsSevenSum`, `Scoring.TotalOnlyReadsQuestions` and `Scoring.TotalBounds` characterise it |
| `Scoring.AccumulateShift` | src/App.tsx:45-47 | the `reduce` fold is its start value plus the fold from 0 |
| `Scoring.AccumulateIsSum` | src/App.tsx:45-47 | the `reduce` fold from 0 over any question list is the sum of that list's contributions, a missing answer counting 0 |
| `Scoring.TotalIsSevenSum` | src/App.tsx:45-47 | `total` is the sum of `answers[q] ?? 0` over exactly `q1`..`q7` |
| `Scoring.TotalOnlyReadsQuestions` | src/App.tsx:45-47 | two answer sets that agree on the seven questions have the same total, so no other key affects it |
| `Scoring.QuestionAt` | src/components/QuestionCard.tsx:4 | an answer from the 0..5 scale contributes between 0 and 5 to the total |
| `Scoring.TotalBounds` | src/App.tsx:45-47 | with every present answer in 0..5, the total is in 0..35, whether or not all are answered |
| `Scoring.CompleteTotal` | src/App.tsx:45-47 | once all seven are answered, the total is the plain sum of the seven answers |
| `Scoring.AnswerOr0Update` | src/App.tsx:55-57 | after recording `v` for `k`, question `k` reads `v` and every other question reads as before |
| `Scoring.QuestionKeys` | src/App.tsx:8-16 | the question keys are exactly `q1`..`q7` |
| `Scoring.TotalAfterAnswer` | src/App.tsx:55-57 | recording `v` for a question replaces its contribution by `v`; recording under any other key leaves the total unchanged |
| `Scoring.LastAnswerWins` | src/App.tsx:159 | answering a question twice keeps only the second value, and the total counts only that value |
| `Validation.ValidName` | src/App.tsx:50 | no contract of its own; `Validation.ValidNameIff` characterises it |
| `Validation.ValidNameIff` | src/App.tsx:50 | `validName` holds exactly when the name has two non-whitespace characters |
| `Validation.ValidEmail` | src/App.tsx:49 | no contract of its own: the pattern's meaning, an `@` and a later `.` splitting the whole string into three non-empty runs without whitespace or `@`; `Validation.ValidEmailIff` characterises it |
| `Validation.ValidEmailIff` | src/App.tsx:49 | `validEmail` holds exactly when the email has no whitespace, exactly one `@` with something before it, and a `.` after it that is neither the first nor the last character of the domain |
| `Validation.Submittable` | src/App.tsx:53 | no contract of its own; `Validation.SubmittableIff` characterises it |
| `Validation.SubmittableIff` | src/App.tsx:52-53 | `canSubmit` holds exactly when name, email, consent, all seven answers and not-loading all hold; any single failure closes the gate |
| `Validation.UnansweredBlocks` | src/App.tsx:52-53 | one unanswered question keeps the gate closed, whatever else holds |
| `Validation.ExampleEmailValid` | src/App.tsx:49 | `jo@example.com` passes the email check |
| `Validation.ExampleNameValid` | src/App.tsx:50 | `Jo Smith` passes the name check |
| `Validation.ExampleAnswers` | src/App.tsx:52 | the worked example answers every question |
| `Validation.ExampleTotal` | src/App.tsx:45-47 | the worked example's answers 2,1,0,3,2,1,4 total 13 |
| `Validation.ExampleGateOpen` | src/App.tsx:52-53 | the worked example with consent and nothing in flight opens the gate |
| `Submission.UtmFields` | src/App.tsx:82 | six attribution entries are appended |
| `Submission.CaptureUtm` | src/App.tsx:60-68 | each utm field is the query parameter of its own name, `''` when absent, and `page_url` is the page address |
| `Submission.AnswerFields` | src/App.tsx:80 | one answer entry per question |
| `Submission.QolFields` | src/App.tsx:81 | no contract of its own; `Submission.PayloadQol` characterises it |
| `Submission.Payload` | src/App.tsx:77-82 | no contract of its own; `Submission.BuildFormData` builds it and `Submission.PayloadKeys` and `Submission.PayloadRoundTrip` characterise it |
| `Submission.BuildFormData` | src/App.tsx:77-82 | the append-by-append construction, with its two loops, produces exactly the specified body |
| `Submission.PayloadKeys` | src/App.tsx:77-82 | the body's entry names, in order: name, email, q1..q7, `qol` only when given, then utm_source..utm_content and page_url |
| `Submission.PayloadIdentity` | src/App.tsx:78-79 | the endpoint reads the trimmed name and the trimmed email |
| `Submission.PayloadAnswer` | src/App.tsx:80 | the endpoint reads each question's field as the decimal text of `answers[q] ?? 0` |
| `Submission.PayloadQol` | src/App.tsx:81 | the body has a `qol` field exactly when the field is not empty, holding its decimal text |
| `Submission.PayloadUtm` | src/App.tsx:82 | the endpoint reads every attribution field verbatim |
| `Submission.PayloadRoundTrip` | src/App.tsx:77-82 | the endpoint recovers the trimmed identity, every answer (missing as 0), `qol` exactly when given, and the attribution fields |
| `Submission.EndpointTotal` | src/App.tsx:80 | the endpoint, rebuilding the answers from the body, computes the same total that the form shows |
| `Submission.RejectionMessage` | src/App.tsx:91 | a rejection shows the server's error when it is non-empty, otherwise "Submission failed."; the message is never empty |
| `Submission.RecordedTotal` | src/App.tsx:89 | no contract of its own: `out.total ?? total`; `Form.FormController.FinishSubmit` and `Submission.OkMessageAsWrittenIff` state its use |
| `Submission.GreetingShape` | src/App.tsx:88 | the greeting starts with "Thanks, ", then the text before the first space of the name, then "!", and ends with the text printed for the total and a full stop |
| `Submission.OkMessageAsWritten` | src/App.tsx:88 | no contract of its own: the greeting with `${out.total}` printed as `undefined`, `null` or the number; `Submission.GreetingShape` and `Submission.OkMessageAsWrittenIff` characterise it |
| `Submission.OkMessage` | src/App.tsx:88-89 | no contract of its own: the corrected greeting, printing the recorded total; `Submission.GreetingShape` and `Submission.OkMessageNamesTotal` characterise it |
| `Submission.OkMessageAsWrittenMissing` | src/App.tsx:88 | as written, a reply without `total` greets "Thanks, Jo! Your IPSS total is undefined." |
| `Submission.OkMessageAsWrittenNull` | src/App.tsx:88 | as written, a reply with `"total": null` greets "Thanks, Jo! Your IPSS total is null." |
| `Submission.OkMessageAsWrittenIff` | src/App.tsx:88-89 | the greeting as written agrees with the greeting for the recorded total exactly when the reply's `total` is a number; missing or `null`, it never names the recorded total |
| `Submission.OkMessageNamesTotal` | src/App.tsx:88-89 | the corrected greeting determines the total it reports: equal greetings for one name mean equal totals |
| `ScoreBadge.TierOf` | src/components/ScoreBadge.tsx:5-8 | Mild exactly below 8 (negatives included), Moderate exactly for 8..19, Severe exactly from 20 with no cap |
| `ScoreBadge.TierBoundaries` | src/components/ScoreBadge.tsx:7-8 | 7 is Mild, 8 Moderate, 19 Moderate, 20 Severe |
| `ScoreBadge.TierMonotone` | src/components/ScoreBadge.tsx:5-8 | a larger total never has a milder tier |
| `ScoreBadge.TierMatchesLegend` | src/App.tsx:221-223 | on 0..35 the badge agrees with the score legend's 0–7 / 8–19 / 20–35 ranges |
| `ScoreBadge.Badge` | src/components/ScoreBadge.tsx:5-8 | no contract of its own: the (label, colour) pair of the total's tier; `ScoreBadge.BadgeColourPairs` characterises it |
| `ScoreBadge.BadgeColourPairs` | src/components/ScoreBadge.tsx:5-8 | every label has its own colour (emerald Mild, amber Moderate, rose Severe), and those are the only labels |
| `Form.FormController.constructor` | src/App.tsx:35-43 | a fresh page has empty fields, no answers, no consent, nothing loading and no messages |
| `Form.FormController.CanSubmit` | src/App.tsx:53 | no contract of its own: the gate on the current fields; `Validation.SubmittableIff` characterises it |
| `Form.FormController.SetName` | src/App.tsx:134 | the name input replaces the name and nothing else |
| `Form.FormController.SetEmail` | src/App.tsx:143 | the email input replaces the email and nothing else |
| `Form.FormController.SetConsent` | src/App.tsx:174 | the checkbox sets consent and nothing else |
| `Form.FormController.SetQol` | src/App.tsx:168 | the quality-of-life input is stored without a range check |
| `Form.FormController.OnChangeAnswer` | src/App.tsx:55-57 | overwrites one key and leaves every other key unchanged; the total changes by the new value minus the old contribution, or not at all for a non-question key; answers stay in scale |
| `Form.FormController.BeginSubmit` | src/App.tsx:72-82 | with the gate closed, changes nothing; otherwise sets loading, clears both messages and captures the name, the total and the specified body, whose attribution fields are read from the page's query string and address |
| `Form.FormController.FinishSubmit` | src/App.tsx:84-97 | Ok records `out.total ?? total` and shows the greeting as written, with the reply's `total` printed as it came; Rejected shows the server error or the fallback; network failure shows the network message; a failure keeps the earlier recorded total; loading ends false in every case |
| `Form.FormController.HandleSubmit` | src/App.tsx:70-98 | a no-op when the gate is closed; otherwise it sends the specified body, applies the outcome as `FinishSubmit` does, never touches answers, name, email, consent or qol, and reopens the gate |
| `Form.ExampleOverwrite` | src/App.tsx:159 | answering q1 with 3 then 5 raises the total by 5, not 8 |
| `Form.ExampleRetry` | src/App.tsx:91-96 | after a "Duplicate" rejection the error is shown and the gate reopens; a retry that fails on the network shows the network message and keeps the total |

## Left out

- JSX markup, Tailwind classes and the SVG icons (src/App.tsx:18-32, 100-266) are not modelled. Only the score legend's ranges appear, as `ScoreBadge.TierMatchesLegend`. The markup is not purely presentational: its control attributes take part in the browser's form validation (see the `Form.FormController.BeginSubmit` line below).
- src/components/RadialScore.tsx wraps a chart library and has no logic. src/components/QuestionCard.tsx is a button grid; only its 0..5 scale is kept, as `Scoring.InScale`. vite.config.ts is build configuration.
- `fetch`, `res.json()` and the endpoint URL are not modelled; `./config` is not part of this model. The reply is a `Response` parameter. A body that is not JSON counts as `NetworkFailure`, as the source's `catch` treats it.
- The reply's field types are simplified. `ok` is taken as a boolean. `total` is missing, `null` or an integer (`Submission.ReplyTotal`): the recorded total treats missing and `null` alike, while the greeting prints them as `undefined` and `null`. A fractional total is not modelled. `error` is an optional string. Truthiness of other JSON values is not modelled.
- The `FormData` object is modelled as an ordered list of (name, value) entries. The endpoint's reading of a field is modelled as `FormData.get`, which returns the first entry of that name.
- `window.location` and `URLSearchParams` are not modelled. The query string is a map (a repeated parameter is not modelled), and the page address is a string.
- The JavaScript regular expression engine is not modelled. `validEmail` is the meaning of its pattern.
- `Number(e.target.value)` for `qol` can give fractions or NaN. The model keeps `qol` as an optional integer, and `String(n)` only for integers.
- React's asynchronous state updates are not modelled. A second submit event that arrives before the re-render that disables the button could start a second request; the model's gate always sees the latest state. Edits made while a request is in flight are possible between `BeginSubmit` and `FinishSubmit`.
- The footer's year (`new Date()`) is not modelled.
- `Text.IntToString`: models `String(n)` only where JavaScript prints an integer in plain decimal, that is for magnitudes below 10^21 that a double holds exactly. From 10^21 up JavaScript uses exponent form ("1e+21"), and above 2^53 a number may not be the integer it was typed or sent as. A reply's `total` or a typed `qol` could in principle reach that range.
- `Form.FormController.BeginSubmit`: the browser's built-in constraint validation is not modelled. The form at src/App.tsx:128 has no `noValidate`, so before the `submit` event fires the browser checks the controls: `required` on name and email (src/App.tsx:136, 145), `type="email"` (src/App.tsx:143), and `min={0} max={6}` with step 1 on the quality-of-life input (src/App.tsx:166). When a control fails, the event never fires and `handleSubmit` does not run. Examples are a `qol` of 9 or 2.5, or the email `jo@exa_mple.com`. The model's methods are `handleSubmit` once it is called: they would send such a body.
- `Form.FormController.HandleSubmit`: the same browser validation is not modelled, for the same reason; it models `handleSubmit` once the event has fired.
- `Validation.ValidName`: counts Unicode scalar values, while JavaScript's `length` counts UTF-16 code units. A name made of one character outside the Basic Multilingual Plane passes `validName` in the browser but not in the model.
- `Validation.ValidNameIff`: inherits the same difference from `Validation.ValidName`. Its "two non-whitespace characters" are scalar values, not UTF-16 code units.

## Findings

| source | as written | input that shows it | evidently intended | confidence | as-written member | corrected member |
|---|---|---|---|---|---|---|
| src/App.tsx:88-89 | the greeting interpolates `out.total` directly, while the recorded total falls back to the local total (`out.total ?? total`) | reply `{ ok: true }` without `total`, name "Jo Smith", local total 13: the greeting reads "Thanks, Jo! Your IPSS total is undefined." while 13 is recorded; with `{ ok: true, total: null }` it reads "… total is null." | the greeting reports the recorded total, `out.total ?? total` | medium; not executed | `Submission.OkMessageAsWrittenIff` | `Submission.OkMessageNamesTotal` |

`Form.FormController` shows the greeting as written, as the component does.
`Submission.OkMessage` is the corrected greeting, which prints `out.total ?? total`.
