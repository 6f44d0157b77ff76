# edd_agent decision core in Dafny

This project models the decision logic of the edd_agent leasing-outreach agent. The agent picks the next message (channel, subject, body, call-to-action) and the next action for a prospect. Four pieces of its logic are modelled here, each proved against a specification.

- **Evaluation engine, `EvalRunner`** (module `EvalRunner`). It takes an eval record, an agent output and optional metrics. From these it builds four ordered check lists: output match, thresholds, assertions and constraints. It also computes a score map and an overall status, reduced from every check. Each validator is a method that appends checks one at a time, as the source does. Each method is proved equal to a function, and lemmas about that function state which checks appear and with which status.
- **Retry gate and compliance tool** (modules `Validation` and `Tools`).
  - `validate_response` checks that the channel is the expected one and that the body carries the opt-out wording.
  - The agent's own tools are `check_compliance_rules` and `verify_channel_consent`. The first checks opt-out wording and scans for Fair Housing terms. The second maps a channel to its consent key.
  - Module `TwoTier` relates the gate to the engine's checks.
- **Agent control loops** (module `Agent`).
  - The retry controller `run_with_retries` passes each attempt's error on to the next attempt and backs off between attempts.
  - `_invoke_with_backoff` retries the model call only on rate-limit errors.
  - The ReAct loop is bounded to ten steps and extracts the first fenced JSON answer.
  - The model, `json.loads` and the model call are functions the loops receive. Sleeps are recorded as ghost sequences.
- **Comparison tool** (module `CompareOutputs`). A class `OutputComparer` holds the two indexes that `load_data` fills. It produces:
  - the detailed `compare_task` view with its not-found guards;
  - the ✅/⚠️/❌ summary of `compare_all`;
  - `_format_multiline`;
  - the 20-line truncation of `_generate_diff`.

Shared modules:
- `Wrappers`: Option and an explicit absent/null/present field.
- `PyText`: Python `in`, `.lower()`, `.strip()`, `.rstrip()`, `split` and `join` on strings.
- `Records`: the data model, with the source's `d.get(k, {}) or {}` reads spelled out.
- `TextSimilarity`: `_calculate_similarity` over an abstract `SequenceMatcher` ratio ranging over [0, 1].

Behaviour of the code that the model keeps, though it is easy to miss:
- A task whose body is `""` against a missing body gets 0.0 in the `compare_all` summary, but 1.0 from `_calculate_similarity`. `CompareOutputs.SummaryBodySimilarityDefaults` states exactly when the two disagree.
- `verify_channel_consent` parses the consent record before it looks at the channel. A malformed record is therefore an error even for an unknown channel.
- `_invoke_with_backoff` with `max_retries <= 0` makes no call and returns None.

## Model

| member | source | states |
|---|---|---|
| Validation.ValidateResponse | edd/src/validation.py:4-32 | the error list built by conditional appends is exactly the gate's error sequence `Errors` |
| Validation.ErrorsEmptyIff | edd/src/validation.py:12-32 | the gate returns no error iff the channels agree and the opt-out rule holds for the actual channel and body |
| Validation.ErrorsShape | edd/src/validation.py:13-30 | a channel-mismatch error is present iff the channels differ, and then it comes first; at most two errors; never both opt-out errors |
| Validation.SmsWithoutStop | edd/src/validation.py:19-23 | an SMS with no "stop" in any case gets exactly one opt-out error, last, and the count is 1 or 2 depending on the channel match |
| Validation.EmailWithoutOptOut | edd/src/validation.py:19-30 | an e-mail without "opt", "unsubscribe" or "reply stop" in any case gets exactly one opt-out error, last |
| Validation.OtherChannelsNoOptOutError | edd/src/validation.py:19-30 | channels other than sms and email never get an opt-out error, so at most one error |
| Validation.BodyReadIgnoringCase | edd/src/validation.py:19-20 | a None body reads as "" and bodies equal up to case give the same errors |
| Tools.ConsentKey | edd/src/tools.py:18-25 | a key exists exactly for email, sms and voice, and it is the channel name followed by "_opt_in" |
| Tools.ConsentDecision | edd/src/tools.py:8-31 | on a parsed record: unknown channel iff not email/sms/voice; GRANTED iff known and the flag is set; a missing flag means DENIED |
| Tools.TermIssues | edd/src/tools.py:55-64 | at most one issue per scanned term, each a Fair Housing issue |
| Tools.TermIssuesFound | edd/src/tools.py:55-64 | a term gives an issue iff it is scanned and occurs in the lower-cased body |
| Tools.TermIssuesOrdered | edd/src/tools.py:55-64 | with distinct terms, the issues name the terms in scan order |
| Tools.ComplianceIssuesShape | edd/src/tools.py:40-64 | at most six issues; only the first can be an opt-out issue; a Fair Housing issue is present iff its term is in the lower-cased body |
| Tools.ComplianceIssuesOrdered | edd/src/tools.py:55-64 | the Fair Housing issues follow the order of the five scanned terms |
| Tools.ComplianceIgnoresCase | edd/src/tools.py:40 | lower-casing the body first does not change the issues |
| Tools.OptOutAgreesWithGate | edd/src/tools.py:43-52 | the tool reports no opt-out issue iff the retry gate's opt-out rule holds for the same channel and body |
| Tools.DiscriminatoryTermsDistinct | edd/src/tools.py:55 | the five scanned terms are pairwise different |
| Tools.ScanOptOut | edd/src/tools.py:43-52 | the opt-out branch yields exactly the opt-out issues of the channel and body |
| Tools.ScanTerms | edd/src/tools.py:55-64 | the loop over terms appends exactly one issue per term found, in order |
| Tools.CheckComplianceRules | edd/src/tools.py:35-69 | the reply is "Compliance Check: PASSED" iff there are no issues; otherwise it carries exactly the issues |
| TextSimilarity.Similarity | edd/eval_runner.py:384-390 | the result lies in [0, 1]; it is 1.0 for two empty texts, 0.0 when exactly one is empty, the ratio otherwise |
| TextSimilarity.Band | edd/eval_runner.py:105 | passed iff similarity > 0.85, warning iff in (0.7, 0.85], failed iff at most 0.7 |
| TextSimilarity.BandMonotone | edd/eval_runner.py:105-119 | a higher similarity never gets a worse band |
| EvalRunner.ValidateOutputMatch | edd/eval_runner.py:80-159 | the appended list equals the output-match specification `OutputMatchChecks` |
| EvalRunner.OutputMatchEnds | edd/eval_runner.py:90-96 | the list has at least two checks; `channel_match` (failed iff the channels differ) is first and `next_action_type_match` (failed iff the types differ) is last |
| EvalRunner.OutputMatchOrder | edd/eval_runner.py:87-159 | checks keep the validator's order, so no name occurs twice |
| EvalRunner.OutputMatchNames | edd/eval_runner.py:87-159 | only output-match check names appear |
| EvalRunner.OutputMatchSubject | edd/eval_runner.py:99-110 | `subject_match` appears iff an e-mail is expected, with the band of the subjects' similarity |
| EvalRunner.OutputMatchBody | edd/eval_runner.py:113-124 | `body_similarity` appears iff both bodies are present, with the band of their similarity |
| EvalRunner.OutputMatchNullBodies | edd/eval_runner.py:113-130 | `body_null_match` appears, passed, iff both bodies are None; so a single None body yields no body check |
| EvalRunner.OutputMatchCta | edd/eval_runner.py:133-144 | `cta_type_match` appears iff both CTA objects are non-empty, failed iff their types differ |
| EvalRunner.ThresholdChecks | edd/eval_runner.py:161-217 | at most four threshold checks |
| EvalRunner.ThresholdSeverities | edd/eval_runner.py:161-217 | each threshold check appears iff its key is configured; latency, locale and safety fail out of bounds, personalization warns |
| EvalRunner.ThresholdOrder | edd/eval_runner.py:161-217 | threshold checks keep the order latency, personalization, locale, safety |
| EvalRunner.ValidateThresholds | edd/eval_runner.py:161-217 | the appended list equals `ThresholdChecks` |
| EvalRunner.AssertionChecks | edd/eval_runner.py:219-261 | at most one check per required state, each named after a required state |
| EvalRunner.AssertionChecksFrom | edd/eval_runner.py:225 | a check is in the list iff some required state produces it |
| EvalRunner.AssertionChecksNamed | edd/eval_runner.py:225-259 | a check about a state is present iff the state is required and produces that check |
| EvalRunner.AssertionCheckNamed | edd/eval_runner.py:226-259 | every check a state produces carries that state's name |
| EvalRunner.ConsentVerified | edd/eval_runner.py:227-251 | `consent_verified`: "none" passes iff all consent is false, else warns; sms/email fail iff their opt-in flag is unset; other channels emit nothing |
| EvalRunner.AssertionStates | edd/eval_runner.py:253-259 | the three rubber-stamped states are always passed; unknown states emit nothing |
| EvalRunner.AssertionStep | edd/eval_runner.py:226-259 | one loop step appends exactly the state's checks |
| EvalRunner.ValidateAssertions | edd/eval_runner.py:219-261 | the appended list equals `AssertionChecks` over the required states in order |
| EvalRunner.ConstraintOrder | edd/eval_runner.py:263-326 | constraint checks keep the order opt-out, locale, respect-consent, primary CTA |
| EvalRunner.ConstraintOptOutSmsRule | edd/eval_runner.py:273-280 | `constraint_opt_out_sms` appears iff opt-out is required and the channel is sms; it fails iff there is no "stop"; it never warns |
| EvalRunner.ConstraintOptOutEmailRule | edd/eval_runner.py:273-287 | `constraint_opt_out_email` appears iff opt-out is required and the channel is email; it fails iff no opt-out phrase is present; it never warns |
| EvalRunner.ConstraintLocale | edd/eval_runner.py:290-300 | the locale check appears iff locale is required and the language is "es"; it fails iff no Spanish indicator is present |
| EvalRunner.ConstraintRespectConsentRule | edd/eval_runner.py:303-312 | respect-consent fails iff all consent is false and a message was sent (channel not "none", body present) |
| EvalRunner.ConstraintPrimaryCtaRule | edd/eval_runner.py:315-324 | primary-CTA never fails; it warns iff an expected CTA type is set and differs from the actual one |
| EvalRunner.OptOutStep | edd/eval_runner.py:273-287 | the opt-out branch appends exactly its specified piece |
| EvalRunner.LocaleStep | edd/eval_runner.py:290-300 | the locale branch appends exactly its specified piece |
| EvalRunner.RespectConsentStep | edd/eval_runner.py:303-312 | the respect-consent branch appends exactly its specified piece |
| EvalRunner.PrimaryCtaStep | edd/eval_runner.py:315-324 | the primary-CTA branch appends exactly its specified piece |
| EvalRunner.ValidateConstraints | edd/eval_runner.py:263-326 | the appended list equals `ConstraintChecks` |
| EvalRunner.Points | edd/eval_runner.py:341-368 | the personalization points never exceed the maximum points |
| EvalRunner.PersonalizationScore | edd/eval_runner.py:341-368 | the score lies in [0, 1]; it is 1.0 with no signal, otherwise points over maximum points |
| EvalRunner.LocaleAccuracy | edd/eval_runner.py:371-377 | the accuracy lies in [0, 1], and it is 1.0 unless the language is "es" and the body is non-empty |
| EvalRunner.ScoresRanges | edd/eval_runner.py:328-382 | body similarity lies in [0, 1], 1.0 for two falsy bodies and 0.0 for one; personalization and locale lie in [0, 1]; safety violations are 0 |
| EvalRunner.CityInterestOnlyDenominator | edd/eval_runner.py:352-354 | a city interest adds one to the maximum points and nothing to the points |
| EvalRunner.NameAndAmenityIgnoreCase | edd/eval_runner.py:345-360 | name and amenity matches see the body only through its lower-case form |
| EvalRunner.UnitMatchIsCaseSensitive | edd/eval_runner.py:347-366 | unit "A" does not match body "a", while name "Ana" matches body "ANA" |
| EvalRunner.TallyPersonalization | edd/eval_runner.py:341-366 | the `+=` tallies end at `Points` and `MaxPoints` |
| EvalRunner.CalculateScores | edd/eval_runner.py:328-382 | the score map equals `ScoresOf` |
| EvalRunner.Worst | edd/eval_runner.py:66-76 | the worst status is at least as severe as every check, passed for no checks, and held by some check |
| EvalRunner.OverallStatusRule | edd/eval_runner.py:66-76 | failed iff some check failed; passed_with_warnings iff none failed and some warned; passed iff all passed |
| EvalRunner.EvaluateShape | edd/eval_runner.py:16-78 | thresholds are empty without metrics; the other lists and the scores do not depend on metrics; the status reduces all four lists |
| EvalRunner.ChannelMismatchFails | edd/eval_runner.py:90-96 | a channel other than the expected one fails the evaluation |
| EvalRunner.SmsWithoutConsentFails | edd/eval_runner.py:240-245 | an SMS without `sms_opt_in`, with consent verification required, fails the evaluation |
| EvalRunner.RunEval | edd/eval_runner.py:16-78 | the findings record equals `Evaluate` |
| EvalRunner.CountStatus | edd/eval_runner.py:400-402 | a tally never exceeds the number of findings |
| EvalRunner.ReportTallies | edd/eval_runner.py:400-402 | the three tallies count each overall status and add up to the number of findings |
| Agent.AttemptError | edd/src/agent.py:102-126 | an attempt leaves no error iff it produced a truthy output that passes the gate |
| Agent.Contexts | edd/src/agent.py:91-104 | one context per attempt (only a length; which context each attempt gets is `Agent.TraceThreadsErrors`) |
| Agent.Trace | edd/src/agent.py:94-126 | the trace of k attempts has length k (only a length; how attempts are threaded is `Agent.TraceThreadsErrors`) |
| Agent.TraceThreadsErrors | edd/src/agent.py:91-126 | attempt i+1 is made with context None when first, and otherwise with the error of attempt i |
| Agent.LastOutputIsLatest | edd/src/agent.py:92-105 | `last_output` is None when every attempt raised, else the output of the latest attempt that returned |
| Agent.Backoffs | edd/src/agent.py:128-131 | the sleeps after the first m attempts are 2, 4, ..., 2m |
| Agent.TraceStep | edd/src/agent.py:94-126 | one more attempt extends the trace, its contexts and `last_output` by that attempt alone |
| Agent.NoneSucceedEach | edd/src/agent.py:94-131 | no attempt in the list passed the gate |
| Agent.Gate | edd/src/agent.py:105-126 | an attempt's error is computed as `AttemptError`: runtime error for a raise or empty output, else the joined gate errors |
| Agent.RunWithRetries | edd/src/agent.py:79-135 | at most max_retries attempts, threaded with errors; the first passing output is returned at once; otherwise all attempts are made and `last_output` is returned; the sleeps are 2·attempt between attempts only |
| Agent.Pow2 | edd/src/agent.py:248-262 | every base delay is at least one (only a bound; the doubling is `Agent.BaseDelays`) |
| Agent.BaseDelays | edd/src/agent.py:248-262 | the base delays double: 1, 2, 4, ... |
| Agent.InvokeWithBackoff | edd/src/agent.py:246-264 | 1..max_retries calls; every call before the last hit a rate limit; the last call's response or error is returned or re-raised; a non-rate-limit error stops at once; delays double |
| Agent.FindFirst | edd/src/agent.py:235 | `find` gives the first position of a substring |
| Agent.NoCodeEnd | edd/src/agent.py:235 | text without backticks contains no closing fence |
| PyText.Strip | edd/src/agent.py:235 | `.strip()` returns the slice of its input with no whitespace at either end, everything cut off on both sides being whitespace |
| Agent.NotPrefixAt | edd/src/agent.py:235 | a string absent from a text is a prefix of none of its suffixes (helper of FenceAfterPrefix) |
| Agent.FenceAfterPrefix | edd/src/agent.py:235 | after a prefix holding no "```json", the first "```json" is the one that follows the prefix, and the text after it is what the split keeps |
| Agent.FenceOffset | edd/src/agent.py:235 | no "```json" starts inside a backtick-free body or its closing fence |
| Agent.PieceAfterBody | edd/src/agent.py:235 | the text up to the next "```json" is the body, or starts with the body and its closing fence |
| Agent.BodyBeforeCodeEnd | edd/src/agent.py:235 | cutting that piece at its first "```" leaves the body |
| Agent.ExtractFencedAnswer | edd/src/agent.py:232-237 | for a reply made of text holding no "```json" (inline backticks allowed), "```json", JSON text without backticks, and a "```" not followed by another backtick, the extraction returns the trimmed JSON text |
| Agent.FirstEndIsFirst | edd/src/agent.py:151-244 | the loop's result comes from the first step that ends it, or it is None when no step of the ten does |
| Agent.FirstEndAt | edd/src/agent.py:152 | a step that ends the loop gives its result; otherwise the loop goes on to the next step |
| Agent.Step | edd/src/agent.py:160-240 | one turn ends the loop on a raised error or a fenced answer that parses, and continues otherwise |
| Agent.ExecuteReactLoop | edd/src/agent.py:137-244 | at most ten turns; the last turn taken is the first that ends the loop and gives the result, or all ten continued and the result is None; every earlier turn continued |
| CompareOutputs.IndexLookup | edd/compare_outputs.py:27-36 | after indexing, a key is present iff it was already present or some record has it, and it maps to the last such record |
| CompareOutputs.InsertOrderShape | edd/compare_outputs.py:27-30 | dict insertion order keeps the old keys first, lists each key once, and holds exactly the assigned keys |
| CompareOutputs.FormatMultilineKeeps | edd/compare_outputs.py:185-186 | "", None and "null" come back unchanged |
| CompareOutputs.FormatMultilineLineCount | edd/compare_outputs.py:188-189 | formatting keeps the number of line breaks |
| CompareOutputs.FormatMultilineNoIndent | edd/compare_outputs.py:183-189 | with indent 0 the text comes back unchanged |
| CompareOutputs.KeptLines | edd/compare_outputs.py:203-206 | filtering never adds lines |
| CompareOutputs.FirstLines | edd/compare_outputs.py:199-202 | the first lines are a prefix of at most twenty lines, and the whole diff when it is that short |
| CompareOutputs.KeptLinesAre | edd/compare_outputs.py:203-206 | every kept line is an indented, right-stripped non-header line; no line is dropped without headers; all are dropped when all are headers |
| CompareOutputs.DiffReportBound | edd/compare_outputs.py:199-211 | at most 21 lines; the truncation marker is appended, as the last line, iff the diff had more than twenty lines |
| CompareOutputs.GenerateDiff | edd/compare_outputs.py:191-211 | an empty diff gives the no-differences line; otherwise the loop over the first twenty lines builds exactly `DiffText` |
| CompareOutputs.SummaryMarkRule | edd/compare_outputs.py:165-167 | ✅ iff channel, body > 0.85 and action agree; ❌ iff the similarity band is failed; ✅ implies a passed band |
| CompareOutputs.ChannelMismatchStillReview | edd/compare_outputs.py:167 | a channel mismatch with similarity above 0.7 is ⚠️, not ❌ |
| CompareOutputs.SummaryBodySimilarityDefaults | edd/compare_outputs.py:160-163 | the summary similarity lies in [0, 1]; it differs from `_calculate_similarity` exactly for two falsy bodies that are not both None |
| CompareOutputs.Summaries | edd/compare_outputs.py:144-171 | one entry per task in order; No result exactly for tasks without a result |
| CompareOutputs.TaskComparisonGuards | edd/compare_outputs.py:40-44 | not-in-eval-records iff the id is not indexed there (checked first); not-in-results iff only the result is missing; compared iff both are present |
| CompareOutputs.BodyViewRule | edd/compare_outputs.py:82-100 | "Both: null" iff both bodies are None; a similarity iff both are truthy; a diff iff the similarity is below 1; falsy bodies shown as "null" |
| CompareOutputs.CompareBodies | edd/compare_outputs.py:82-100 | the body section built step by step equals `BodyViewOf` |
| CompareOutputs.OutputComparer.constructor | edd/compare_outputs.py:17-21 | the indexes start empty |
| CompareOutputs.OutputComparer.LoadData | edd/compare_outputs.py:23-36 | eval records and results are indexed by task id, the last record per id winning, and the key order is dict insertion order |
| CompareOutputs.OutputComparer.CompareTask | edd/compare_outputs.py:38-134 | the report equals `TaskComparisonOf` on the two indexes |
| CompareOutputs.OutputComparer.CompareAll | edd/compare_outputs.py:136-173 | one summary entry per eval record in insertion order, equal to `Summaries` |
| TwoTier.GateAgreesWithEngine | edd/src/validation.py:4-32 | when opt-out is required, the retry gate passes an output iff the engine passes `channel_match` and fails neither opt-out constraint |

## Left out

- `.lower()` is modelled for ASCII letters only, and `.strip()`/`.rstrip()` for the ASCII characters they remove (tab to carriage return, the separators 0x1c to 0x1f, space). Unicode case mapping and non-ASCII whitespace are not modelled.
- `SequenceMatcher.ratio` is a parameter ranging over [0, 1]. No symmetry is assumed. `difflib.unified_diff` is a parameter returning lines.
- The Spanish-word count `re.findall` and the word count `split()` of the locale score are parameters, because regex word boundaries are not modelled.
- `json.loads` is the `parse` parameter of the ReAct loop.
  - A JSON value that is not an object is read as a falsy output. A non-empty list or string would instead reach `validate_response` and raise there.
  - Object keys other than `next_message` and `next_action` are kept only as a count (`Decision.otherKeys`), so an object holding only such keys is truthy; their values are not modelled.
- Eval records whose `expected`, `assertions`, `input` or `profile` is null, or whose threshold values are not numbers, are not modelled: the source raises on them (eval_runner.py:84, 223, 291, 341, 347, 362, 371, and the comparisons at 169, 182, 195, 208), while `EvalRecord` has plain fields for them.
- Eval records whose `assertions.required_states` is null (eval_runner.py:226), whose `assertions.constraints` is null (eval_runner.py:273), or whose `thresholds` is null while metrics are given (eval_runner.py:166) are not modelled either; the source raises on them.
- The constraint flags are booleans, while the source tests them by truthiness (eval_runner.py:273, 290, 303); flag values that are other JSON values are not modelled.
- Python floats are exact Dafny `real`s. IEEE double rounding is not modelled: not in the similarity bands at 0.85 and 0.7 (eval_runner.py:105-119, compare_outputs.py:165-167), the division of the personalization score (eval_runner.py:368), the `total_words * 0.3` of the locale score (eval_runner.py:375), or the threshold comparisons (eval_runner.py:169-208).
- Consent values are booleans. The truthiness of other JSON values, and a consent record that is not an object, are not modelled.
- The text of the exception that `verify_channel_consent` reports as its error is not modelled.
- The model call is an oracle of the attempt number, the context and the step. Tool execution, the message list, tool binding, tracing and logging are not modelled.
- `_calculate_context_tokens` and the token counts depend on tiktoken and only feed telemetry, so they are not modelled.
- `random.uniform` jitter in `_invoke_with_backoff` is not modelled. Only the base delays are recorded.
- `time.sleep` is recorded as ghost sequences of delays; real time passing is not modelled.
- The human-readable `message` strings and compared values of checks are prose and are not modelled. Likewise the report text of `generate_report` beyond its three tallies, and the prose, `json.dumps` output and threshold listing of `compare_task`.
- The 100-character body truncations in reports are not modelled; only the decisions the reports display are.
- `load_data` reads files. `OutputComparer.LoadData` receives the already parsed records instead and requires each eval record to have a task id, because `record["task_id"]` would raise.
- The constructor's file paths are not modelled.
- `EvalRunner.RunEval` requires that the two `None` dereferences of the source do not happen:
  - a null `next_message` while `consent_verified` is required (eval_runner.py:230);
  - a null CTA while a primary CTA is expected (eval_runner.py:317).
- `CompareOutputs.OutputComparer.CompareAll` requires a non-null output and non-null `next_action` objects, because `compare_all` dereferences them (compare_outputs.py:153, 165). `CompareOutputs.OutputComparer.CompareTask` requires only a non-null output, since `compare_task` reads `next_action` through `or {}`. A null output is what edd/main.py:67 records when the retry controller returns None (the case `Agent.LastOutputIsLatest` covers), and `compare_all` then raises at compare_outputs.py:153.
- `get_current_time` is not part of this model because it reads the clock and timezone database. `edd/main.py`, `edd/run_eval_only.py` and `edd/src/tracing.py` are not part of this model either: they do CLI parsing, file I/O and HTML rendering.
