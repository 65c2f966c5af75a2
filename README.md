# Post-operative symptom reporting: chat report and voice-call triage

A Dafny model of the logic of a Streamlit demo. In the demo, lung-surgery
patients report daily symptoms, in one of two ways.

- **The AI chat report** (`app.py`) walks through seven symptoms in order.
  - At each symptom the patient presses a score button 0–10 or types text.
  - Typed text is parsed for a score: first digit run in range, else keyword buckets. A free-text description is pulled out of it.
  - After the last symptom the chat asks up to two open-ended questions.
  - Submitting the report updates the streak and total counters, unlocks achievements and awards points.
  - Every patient input and assistant reply goes to a conversation logger.
- **The AI voice call** (`voice_call_demo.py`) is a scripted eleven-step call.
  - It records scores, sleep and appetite answers, and two safety flags.
  - A rule-based classifier turns those into a green, yellow or red alert level, with a follow-up action.
  - A summary of the symptoms is read back at the closing step.

Files:

| file | module | what it holds |
|---|---|---|
| `text.dfy` | `Text` | Characters and strings. Digits, whitespace, substring containment, decimal rendering, truncation with "...", joining. |
| `score_parser.dfy` | `ScoreParser` | `parse_score_from_text` and `extract_description`, as functions, with their properties as lemmas. |
| `chat_report.dfy` | `ChatReport` | The chat page's `st.session_state` as the class `ReportSession`: the walk through the symptoms, the open-ended step, submission, and one page run (`Render`). Also the pure functions that specify it. |
| `triage.dfy` | `Triage` | `calculate_alert_level`, `get_follow_up_action` and `generate_summary`, as functions of a score table. |
| `voice_call.dfy` | `VoiceCall` | The call's session state as the class `VoiceCallSession`, with one method per button handler and one page run (`Render`). |

`app.py` calls three modules that are not part of this model: `models`, `conversation_store` and `expert_templates`. What the model needs of them becomes parameters.
- **The conversation logger** is a ghost field `log` of `ReportSession`. It is append-only and holds one `LogEvent` per logger call, in order.
- **The expert-template provider** is an `Option<Template>` argument: a text plus an optional template id.
- **The open-ended question list** is an argument.
- **The clock and the ids**: `today`, the report id and the session id are arguments.

The walk's invariant is `ChatReport.WalkState`, checked by `ReportSession.Valid()`:
- the step index stays in 0..N+1;
- exactly the symptoms before the index are scored, each in 0..10;
- descriptions exist only for symptoms up to the current one;
- no open-ended question is answered twice.

Every state-changing method keeps it. Every handler states its whole new state: the fields, the messages shown and the logger events.

One run of the chat page is specified as a function of the page state, a `ChatState` value:
- `Opened` adds the greeting to an empty chat.
- `Step` then dispatches on the index. A score step uses `ScoreStep`, which goes through `ButtonScoreTurn` or `TextTurn`. `TextTurn` goes through `TypedScoreTurn` or `DescriptionOnlyTurn`. The open-ended step uses `OpenEndedStep`, and the submit step uses `Submit`.

`ReportSession.Render` and the methods it calls each state that their new `ChatNow()` equals the matching function of the old one. The lemmas `RunOnlyAdds` and `StepKeepsWalk` state what such a run preserves.

The voice call's invariant is `VoiceCallSession.Valid()`:
- the step index is in range;
- only `sleep` and `appetite` hold a non-numeric answer, so the classifier always reads numbers;
- the transcript holds at most one assistant line per step.

Behaviours of the code that the model keeps as they are:
- `extract_description("9分很痛", 9)` returns `""`. The residue "很痛" has two characters and only residues longer than two are kept (`app.py:671`). See `ScoreParser.ShortResidueIsDropped`.
- The filler-word test (`app.py:666-669`) never decides anything: every filler word is a single character, so the length test already rejects it. See `ScoreParser.FillerWordsAreShort`.
- A score token in the middle of a text is cut out and the spaces on both sides stay: "很痛 7分 晚上更痛" describes itself as "很痛  晚上更痛". See `ScoreParser.MidTextTokenIsCut`.
- A number out of range, such as "100", is skipped, and the keyword buckets are still tried. So "100 很痛" scores 7 (`app.py:633-655`). See `ScoreParser.OutOfRangeNumberKeepsKeywords`.
- Nothing stops `handle_score_selection` from advancing twice. Every call moves the index on by one (`app.py:729-730`).
- "完成並提交" logs the open-ended responses, and submitting logs them a second time (`app.py:827`, `app.py:855`).
- `best_streak` is never updated.
- No code path unlocks `streak_21`.
- The chat report computes no alert level.
- Submitting does not clear `conversation_session_id` (`app.py:858-862`). "← 返回首頁" pressed after a submission therefore logs the session's end a second time, as abandoned after completed (`app.py:420-425`).
- The voice call and the chat report share one "reported today" flag: leaving the call report sets the flag the chat report sets on submission (`voice_call_demo.py:936`, `app.py:876`), and the home page reads it before offering a chat report (`app.py:351`). This assumes both pages run in one Streamlit session. `app.py`'s `main()` (`app.py:1014-1027`) never renders the voice-call page, but that page reads `st.session_state.patient` (`voice_call_demo.py:950`), which only `app.py` sets. So the page is meant to be mounted into the same app.

## Model

| member | source | states |
|---|---|---|
| Text.Abbreviate | app.py:723-726 | A text of at most n characters is kept whole; a longer one becomes its first n characters followed by "...". |
| Text.Join | voice_call_demo.py:809 | `sep.join(parts)`: no parts give "", one part is itself, and the result starts with the first part. |
| Text.JoinSplits | voice_call_demo.py:809 | Cut between any two neighbouring parts, the joined text is the join of the parts before the cut, then one `sep`, then the join of the parts after it. So every part appears in order, with exactly one separator between neighbours. |
| Text.NatToStringRoundTrip | app.py:683 | The decimal text of a number is a non-empty run of digits whose value is that number. |
| Text.ContainsIffOccurs | app.py:642-655 | The keyword test `kw in text` holds exactly when the keyword occurs at some position of the text. |
| ScoreParser.RunsFrom | app.py:631 | The runs found from a position are non-empty runs of digits, and there are none exactly when no digit follows that position. |
| ScoreParser.DigitRuns | app.py:631 | `re.findall(r'\d+', text)`: non-empty digit runs, none exactly when the text has no digit. |
| ScoreParser.FirstBucket | app.py:642-655 | A keyword score, when there is one, is the score of one of the buckets tried. |
| ScoreParser.FirstInRange | app.py:630-637 | The first digit run worth at most 10 is taken; none is found exactly when every run is worth more than 10. |
| ScoreParser.KeywordScore | app.py:642-655 | The keyword fallback only ever yields 0, 9, 8, 7, 5 or 2. |
| ScoreParser.FirstBucketPicksFirstMatch | app.py:642-655 | The first bucket, in order, with a keyword in the text decides the score. |
| ScoreParser.FirstBucketNone | app.py:642-655 | No bucket score exactly when no bucket has a keyword in the text. |
| ScoreParser.ParseScore | app.py:626-655 | The parsed score is None or an integer in 0..10. |
| ScoreParser.RunsFromFindsFirst | app.py:630-637 | Scanning the maximal digit runs from a run boundary finds the value of the first run worth at most 10. |
| ScoreParser.RunsFromNoneInRange | app.py:630-637 | If every run after a boundary is worth more than 10, the scan finds nothing. |
| ScoreParser.ParseScoreTakesFirstInRangeRun | app.py:630-637 | When some maximal digit run is worth at most 10, the score is the value of the first such run, whatever keywords the text holds. |
| ScoreParser.ParseScoreFallsBackToKeywords | app.py:633-642 | When every digit run is worth more than 10, the score is the keyword score. |
| ScoreParser.ParseScoreKeywordOrder | app.py:642-655 | Without an in-range run, the first matching bucket in the order 0, 9, 8, 7, 5, 2 gives the score. |
| ScoreParser.ParseScoreNone | app.py:630-655 | With no in-range run and no keyword, the result is None. |
| ScoreParser.LeadingScoreParses | app.py:630-637 | A score 0..10 written at the start of a text, not followed by a digit, is parsed back. |
| ScoreParser.ScoreTextParsesBack | app.py:681-683 | The "{score} 分" text shown for a button press parses back to that score. |
| ScoreParser.RemoveScoreTokens | app.py:663 | Removing the `digits[spaces][分]` tokens leaves no digit and is never longer than the input. |
| ScoreParser.RemoveScoreTokensFromInput | app.py:663 | Every character left after the removal is a character of the input. |
| ScoreParser.RemoveScoreTokensKeepsPlainPrefix | app.py:663 | Text before the first digit passes through the removal unchanged, whatever follows it. |
| ScoreParser.RemoveScoreTokenWhole | app.py:663 | A whole token, digits then whitespace then an optional "分", is deleted wherever it starts, and the text after it is processed on its own. |
| ScoreParser.RemoveScoreTokensIdentity | app.py:663 | A text without digits is unchanged by the removal. |
| ScoreParser.RemoveLeadingScoreToken | app.py:663 | A leading "d分" token is removed, and the digit-free rest is kept. |
| ScoreParser.LeadingTokenEnd | app.py:663 | The token of a text starting with a digit and "分" ends right after the digit; "分" is taken with it. |
| ScoreParser.Strip | app.py:663 | The stripped text has no whitespace at either end and only characters of the input. |
| ScoreParser.StripTrims | app.py:663 | The stripped text is a slice of the input with only whitespace before and after it: exactly the ends are trimmed. |
| ScoreParser.StripIdentity | app.py:663 | A text without whitespace at its ends is unchanged by stripping. |
| ScoreParser.ExtractDescription | app.py:658-671 | The description is the stripped residue after removing the score tokens when that residue is longer than 2 characters, and "" otherwise. So it has no surrounding whitespace, holds no digit, and uses only characters of the input. |
| ScoreParser.ResidueCharsFromText | app.py:663 | The stripped residue holds no digit and only characters of the input text. |
| ScoreParser.FillerWordsAreShort | app.py:666-671 | A residue longer than 2 characters is never one of the filler words. |
| ScoreParser.ExtractDescriptionSkipsToken | app.py:663-671 | A score token after digit-free text yields the same description as the text with the token left out. |
| ScoreParser.MidTokenResidue | app.py:663-671 | For "p d分 s" with digit-free p and s, no outer whitespace and more than 2 characters in all, the description is p followed by s, spaces included. |
| ScoreParser.MidTextTokenIsCut | app.py:663-671 | "很痛 7分 晚上更痛" has the description "很痛  晚上更痛". |
| ScoreParser.ExtractDescriptionIdempotent | app.py:658-671 | Extracting again from an extracted description changes nothing. |
| ScoreParser.ExtractDescriptionKeepsPlainText | app.py:658-671 | A trimmed text without digits and longer than 2 characters is its own description. |
| ScoreParser.NoDigitsNoRuns | app.py:631 | A text without digits has no digit run. |
| ScoreParser.LastCharMissing | app.py:642-655 | A keyword whose last character is not in the text does not occur in it. |
| ScoreParser.HundredIsOutOfRange | app.py:631-637 | "100 很痛" has one digit run, worth 100, so it is skipped. |
| ScoreParser.HundredMissesEarlierBuckets | app.py:642-647 | "100 很痛" matches none of the 0, 9 and 8 buckets. |
| ScoreParser.OutOfRangeNumberKeepsKeywords | app.py:630-655 | "100 很痛" scores 7 from its keyword: an out-of-range number does not block the fallback. |
| ScoreParser.NoneBucketComesFirst | app.py:642-647 | "沒有很嚴重" scores 0: the 0 bucket is tried before the "嚴重" bucket. |
| ScoreParser.NineWithShortResidueScores | app.py:630-637 | "9分很痛" parses to 9. |
| ScoreParser.LeadingTokenResidue | app.py:663-671 | After a leading "d分", a trimmed digit-free rest is the description if longer than 2 characters, else "". |
| ScoreParser.ShortResidueIsDropped | app.py:671 | "9分很痛" has no description: the residue "很痛" is only 2 characters long. |
| ScoreParser.LongerResidueIsKept | app.py:671 | "7分非常痛" has the description "非常痛". |
| Triage.CalculateAlertLevel | voice_call_demo.py:437-458 | The label always matches the level, and fever or a wound issue gives red whatever the scores. |
| Triage.AlertLevelCharacterization | voice_call_demo.py:440-458 | Red exactly when a flag is set, pain ≥ 7, dyspnea ≥ 6 or overall ≥ 8. Yellow exactly when not red and pain ≥ 4, dyspnea ≥ 4 or overall ≥ 5. Green otherwise. A missing score counts as 0. |
| Triage.AlertLevelMonotone | voice_call_demo.py:437-458 | Raising pain, dyspnea or overall, or setting a flag, never lowers the level. |
| Triage.ClassifierExamples | voice_call_demo.py:437-458 | Empty scores without flags give green; fever gives red even with low scores; pain 8 gives red; pain 5 gives yellow. |
| Triage.FollowUpAction | voice_call_demo.py:461-468 | green, yellow and red have a non-empty action; any other name gives "". |
| Triage.FollowUpActionPerLevel | voice_call_demo.py:461-468 | Each level has its own action, distinct from the other levels'. |
| Triage.PartsFor | voice_call_demo.py:795-807 | There is at most one part per key tried. |
| Triage.PartsForContents | voice_call_demo.py:795-807 | The summary lists only keys that are present, each with its recorded answer, and every present summary key is listed. |
| Triage.PartsForOrdered | voice_call_demo.py:798-807 | The summary lists its keys in the fixed order overall, pain, dyspnea, fatigue, cough. |
| Triage.PartText | voice_call_demo.py:799-807 | Each part starts with its symptom's label. |
| Triage.PartTexts | voice_call_demo.py:798-807 | One text per part, in the same order. |
| Triage.GenerateSummary | voice_call_demo.py:793-809 | With no summary key answered the summary is "狀況良好"; otherwise it starts with the label of the first key listed. |
| Triage.GenerateSummaryEmptyIff | voice_call_demo.py:809 | The summary is "狀況良好" exactly when none of the five summary keys has an answer. |
| VoiceCall.OnlyClosingIsLast | voice_call_demo.py:16-109 | Every step other than the closing step has a next step. |
| VoiceCall.ScoreKey | voice_call_demo.py:622 | A score is filed under the step's symptom when the step names one, and under the step's id otherwise. |
| VoiceCall.AiLineCountAppend | voice_call_demo.py:577-583 | Appending a message adds one to its own step's count of assistant lines if it is one, and nothing otherwise. |
| VoiceCall.AppendPatientLine | voice_call_demo.py:628-632 | A patient line leaves every step's count of assistant lines unchanged. |
| VoiceCall.ScoreAnswerText | voice_call_demo.py:626-632 | The spoken answer starts with "{i} 分" and goes on with a band word. |
| VoiceCall.MultiChoiceText | voice_call_demo.py:674 | The line states the sleep answer first and ends with the appetite answer. |
| VoiceCall.SafetyText | voice_call_demo.py:710-720 | The line starts with "有點發燒" exactly when a fever was reported, and ends with "傷口有點紅腫" exactly when a wound problem was. |
| VoiceCall.ScoreAnswerParsesBack | voice_call_demo.py:621-627 | The spoken answer "{i} 分，…" parses back to the score i. |
| VoiceCall.OpenAnswerText | voice_call_demo.py:749-765 | A typed answer is recorded as typed; an empty one as "沒有其他問題". |
| VoiceCall.VoiceCallSession.ValidKeysNumeric | voice_call_demo.py:622-667 | The scores the classifier reads are numeric whenever present. The score buttons write numbers (lines 622-623). Only the sleep and appetite buttons write option labels (lines 659 and 667). |
| VoiceCall.VoiceCallSession.PromptFor | voice_call_demo.py:562-574 | The closing step's line, and only that line, carries the recap. The recap holds the summary of the current scores and the follow-up action for the alert level of the current scores and flags. Every other step says its scripted line. |
| VoiceCall.VoiceCallSession.constructor | voice_call_demo.py:419-434 | The call starts at step 0 with no messages, no scores, both flags false, not started and not ended. |
| VoiceCall.VoiceCallSession.AnswerCall | voice_call_demo.py:488-492 | Answering starts the call at the greeting (step 1) and changes nothing else. |
| VoiceCall.VoiceCallSession.ShowStepPrompt | voice_call_demo.py:562-583 | The step's assistant line is appended exactly when none is there yet; afterwards the step has exactly one. |
| VoiceCall.VoiceCallSession.SayAndAdvance | voice_call_demo.py:628-635 | One patient line for the current step, then exactly one step on. |
| VoiceCall.VoiceCallSession.RecordScore | voice_call_demo.py:606-641 | The score goes under the step's symptom, or else its id. One patient line with the band word follows, then one step on. Nothing else changes. |
| VoiceCall.VoiceCallSession.CheckAndAdvanceMultiChoice | voice_call_demo.py:671-681 | A line is appended and the step advances exactly when both sleep and appetite are recorded; otherwise nothing changes. |
| VoiceCall.VoiceCallSession.PickSleep | voice_call_demo.py:655-659 | The sleep answer is recorded; the step advances only if appetite was already recorded. |
| VoiceCall.VoiceCallSession.PickAppetite | voice_call_demo.py:662-667 | The appetite answer is recorded; the step advances only if sleep was already recorded. |
| VoiceCall.VoiceCallSession.ConfirmSafety | voice_call_demo.py:706-728 | Both flags are set from the answers, the answer is said, and the step moves on by one. |
| VoiceCall.VoiceCallSession.DeclineOpenQuestion | voice_call_demo.py:741-748 | "目前沒有其他問題，謝謝" is said and the step moves on by one. |
| VoiceCall.VoiceCallSession.SubmitOpenQuestion | voice_call_demo.py:749-765 | The typed answer, or "沒有其他問題", is said and the step moves on by one. |
| VoiceCall.VoiceCallSession.PickQuickReply | voice_call_demo.py:767-782 | The chosen reply is said and the step moves on by one. |
| VoiceCall.VoiceCallSession.Hangup | voice_call_demo.py:599-603 | The call ends. |
| VoiceCall.VoiceCallSession.ReturnFromReport | voice_call_demo.py:927-939 | The call state is reset, and the page-wide flag the chat report also sets (`ReportSession.todayReported`) becomes true; nothing else of the chat session changes. |
| VoiceCall.VoiceCallSession.HandleWidget | voice_call_demo.py:606-782 | The widget the step's kind selects handles the event, with that handler's whole effect. A score goes under `ScoreKey`. A pick of one of the three sleep options (睡得好, 還可以, 睡不好) or the three appetite options (吃得下, 普通, 沒胃口) is recorded and advances only once both are in. The safety answers set both flags. The open question or a quick reply is said. Each spoken answer adds one patient line and moves one step on. Hanging up at the closing step only ends the call. |
| VoiceCall.VoiceCallSession.RenderActiveCall | voice_call_demo.py:524-603 | A step visited for the first time only gets its assistant line (`PromptFor`). Otherwise a widget of the step that takes the event has `HandleWidget`'s effect. Failing that, "📵 結束通話" ends the call, and any other event changes nothing. |
| VoiceCall.VoiceCallSession.Render | voice_call_demo.py:941-984 | Before the call is answered, only "📞 接聽" changes anything: it starts the call at step 1. During the call a run is `RenderActiveCall`'s outcome and leaves the shared flag alone. After the call, "🏠 返回首頁" resets the call and sets the shared flag, and any other event changes nothing. |
| ChatReport.SymptomIdsDistinct | app.py:209-217 | The seven symptom ids are pairwise distinct. |
| ChatReport.UserContent | app.py:681-683 | The user message is never empty. |
| ChatReport.UserContentCarriesScore | app.py:681-683 | The user message is the typed text when there is one; a button press shows a text that parses back to its score. |
| ChatReport.ReplyBand | app.py:712-717 | The default reply reassures for a score up to 3, keeps monitoring for 4 to 6, and escalates to the case manager above 6. |
| ChatReport.Echo | app.py:723-726 | A recorded description is echoed: up to 50 characters whole, a longer one cut to 50 plus "...". |
| ChatReport.RecapLines | app.py:732-760 | The recap has one line per symptom, in interview order; each line carries the symptom's score (0 when missing) and its description cut to 20 characters, or "" when there is none. |
| ChatReport.ScoreReplyFor | app.py:703-760 | The template text is used exactly when the provider has a non-empty one. Otherwise the default reply carries the score's band (≤3, 4–6, ≥7). The description is echoed. The next question follows exactly when a symptom remains. |
| ChatReport.QuestionIds | app.py:808 | One id per response, in order; an id is listed exactly when some response has it. |
| ChatReport.QuestionIdsAppend | app.py:808-814 | Appending a response appends its id. |
| ChatReport.AddAnswer | app.py:806-814 | Responses are only appended to. An empty answer changes nothing. A non-empty answer leaves its question recorded, and a new entry holds the question's id, text and category and the answer. A question already recorded is not added again, so no question id is repeated. |
| ChatReport.AnswersAfter | app.py:794-814 | A run over the first k questions keeps every earlier response and adds at most one per question. |
| ChatReport.QuestionIdsGrow | app.py:808-814 | A recorded question id stays recorded when responses are appended. |
| ChatReport.AnswersAfterKeeps | app.py:794-814 | A run over the questions repeats no question id. |
| ChatReport.AnswersAfterRecords | app.py:794-814 | Every question given a non-empty answer in the run has an entry afterwards. |
| ChatReport.OpenEndedEvents | app.py:837-846 | One logger call per response with a non-empty text, each under the report id, with the question's id, text and category and the answer. |
| ChatReport.OpenEndedEventsAppend | app.py:837-846 | One more response adds its logger call at the end, if its text is non-empty. |
| ChatReport.Unlocked | app.py:885-888 | Only a locked achievement with the given id changes: it becomes unlocked with today's date. |
| ChatReport.UnlockAll | app.py:885-888 | The unlock pass keeps the number and the order of the achievements. |
| ChatReport.UnlockAllAt | app.py:885-888 | The unlock pass treats each achievement on its own. |
| ChatReport.UnlockAllIdempotent | app.py:885-888 | A second pass for the same id changes nothing, whatever its date. |
| ChatReport.AfterUnlocks | app.py:881-897 | The achievements after a submission keep their number, order and ids. |
| ChatReport.AfterUnlocksOnlyUnlocks | app.py:881-897 | A submission only unlocks. Ids and places stay, unlocked entries stay as they were, and only streak_14 and first_description can change. streak_14 unlocks exactly when the streak reaches 14, the describer badge exactly when there is a description or an open-ended answer. |
| ChatReport.ReportPoints | app.py:900-902 | A report earns at least 10 points, and exactly 10 with no description and no open-ended answer. |
| ChatReport.ScoreStepKeeps | app.py:699-730 | Scoring the current symptom and stepping on keeps the walk invariant. |
| ChatReport.DescribeKeeps | app.py:590-597 | Storing the current symptom's description keeps the walk invariant. |
| ChatReport.EmptyWalk | app.py:369-373 | The cleared chat satisfies the walk invariant. |
| ChatReport.FinishWalkKeeps | app.py:821-828 | Moving from the open-ended step to the submit step keeps the walk invariant. |
| ChatReport.WelcomeMessages | app.py:433-500 | An empty chat opens with two assistant messages: the greeting, which is the provider's text or else the default, and then the first question. |
| ChatReport.WelcomeEvents | app.py:433-500 | The two opening messages are logged in the same order, each with its reply, source and template id. |
| ChatReport.StepOnlyAdds | app.py:525-563 | One step of the chat page only adds. Messages and log are extended, the index moves on by at most one, scored symptoms stay scored, and responses are only appended. |
| ChatReport.RunOnlyAdds | app.py:405-563 | The same holds for a whole run of the chat page, greeting included. |
| ChatReport.StepKeepsWalk | app.py:525-563 | Every step of the chat page (score, text, open-ended, submit or no event) keeps the walk invariant. |
| ChatReport.ScoreStepKeepsWalk | app.py:527-554 | A score button or typed text at a score step keeps the walk invariant. |
| ChatReport.TextTurnKeepsWalk | app.py:566-624 | Typed text, with or without a score in it, keeps the walk invariant. |
| ChatReport.OpenEndedStepKeepsWalk | app.py:556-558 | The open-ended step keeps the walk invariant, whether or not it moves on to the submit step. |
| ChatReport.ReportSession.constructor | app.py:236-288 | The initial counters, the six achievements, an empty chat at index 0, no session and nothing logged. |
| ChatReport.ReportSession.StartChatReport | app.py:361-374 | A logger session is started and recorded, and the chat is cleared to index 0. Counters, achievements and history are untouched. |
| ChatReport.ReportSession.ResetWalk | app.py:369-373 | Messages, index, scores, descriptions and responses are cleared. |
| ChatReport.ReportSession.LeaveChat | app.py:420-428 | The recorded session id, if any, is ended as abandoned, even when it was already ended by a submission; without one nothing is logged. |
| ChatReport.ReportSession.ShowWelcome | app.py:433-500 | An empty chat gets the greeting and then the first question. The greeting is the template's text or the default, with its source and template id, and both are logged. |
| ChatReport.ReportSession.HandleScoreSelection | app.py:674-777 | The score goes under exactly the current symptom's id and the index moves on by exactly one. One user message then one reply are shown. A button press is logged as input and every reply is logged. |
| ChatReport.ReportSession.AddUserTurn | app.py:686-696 | The user message is shown, and logged when the input came from a button. |
| ChatReport.ReportSession.AddAssistantTurn | app.py:763-775 | The reply is logged, then shown. |
| ChatReport.ReportSession.HandleTextInput | app.py:566-624 | The new state is `TextTurn` of the old one. The typed text is logged verbatim first. If it holds a score, a non-empty extracted description is stored and the score turn follows. If not, the whole text becomes the description, the assistant asks for a number, and the index stays. |
| ChatReport.ReportSession.HandleTypedScore | app.py:585-594 | The new state is `TypedScoreTurn`: the score goes under the current symptom and the index moves on by one. The description extracted from the text is stored if it is non-empty. The text is shown and logged verbatim, and the reply follows. |
| ChatReport.ReportSession.NoteTypedScore | app.py:575-592 | The verbatim log entry, then the extracted description stored if it is non-empty. |
| ChatReport.ReportSession.HandleDescriptionOnly | app.py:595-622 | The new state is `DescriptionOnlyTurn`: the text becomes the current symptom's description, a request for the score is shown and logged, and the index and scores stay. |
| ChatReport.ReportSession.Describe | app.py:592 | The current symptom's description is replaced, and the walk invariant holds. |
| ChatReport.ReportSession.LogTypedInput | app.py:575-580 | The typed text is logged as text input with itself as the raw input. |
| ChatReport.ReportSession.RecordOpenEndedAnswers | app.py:794-814 | The responses become those of one run over the first two questions (`AnswersAfter`), with no question repeated. |
| ChatReport.ReportSession.SaveOpenEndedResponses | app.py:832-846 | The log grows by exactly the calls for the responses with text, in order. |
| ChatReport.ReportSession.SkipOpenEnded | app.py:820-822 | "跳過，直接提交" sets the index to N+1. |
| ChatReport.ReportSession.FinishOpenEnded | app.py:825-829 | "完成並提交" logs the responses and sets the index to N+1. |
| ChatReport.ReportSession.UnlockAchievement | app.py:885-888 | The in-place loop leaves the achievements equal to the unlock pass for the id. |
| ChatReport.ReportSession.CloseLoggedReport | app.py:855-862 | The responses are logged, then the recorded session id, if any, is ended as completed. |
| ChatReport.ReportSession.SubmitReport | app.py:849-904 | Today's report is filed and today counts as reported. The streak and the total go up by exactly one. Only earned achievements unlock. 10 + 2·descriptions + 5·responses points are returned and added. The logger gets the responses and the session's end. |
| ChatReport.ReportSession.RecordSubmission | app.py:865-904 | The app side of a submission: history, flag, counters, unlocks and points, as in `SubmitReport`. |
| ChatReport.ReportSession.FileReport | app.py:865-876 | Today's history entry holds the scores, the descriptions, the response count and the session id, and today counts as reported. |
| ChatReport.ReportSession.CountCompletion | app.py:877-881 | The streak and the total go up by exactly one, and the new streak is returned. |
| ChatReport.ReportSession.UnlockEarned | app.py:884-897 | The achievements become `AfterUnlocks` of the new streak and whether anything was described. |
| ChatReport.ReportSession.AwardPoints | app.py:900-904 | The report's points are computed and added to the total. |
| ChatReport.ReportSession.ResetToday | app.py:997-999 | The developer option "🔄 重置今日回報" makes today count as not reported. |
| ChatReport.ReportSession.Render | app.py:405-563 | The recorded logger session id is never changed by a run. "← 返回首頁" leaves the chat page, logs the recorded session id (if any) as abandoned, and changes nothing else. Any other event stays on the page, and the new state is `Step(Opened(old state))`. So a run keeps the walk invariant, only appends to the log, moves the index on by at most one, never drops a score and never drops an open-ended response. |
| ChatReport.ReportSession.RenderChat | app.py:432-563 | The greeting, if the chat is empty, then the current step: the new state is `Step(Opened(old state))`. |
| ChatReport.ReportSession.OpenChat | app.py:432-500 | An empty chat gets `WelcomeMessages`, with `WelcomeEvents` logged. A chat with messages is left as it is. |
| ChatReport.ReportSession.RenderStep | app.py:525-563 | The new state is `Step` of the old one. Below N it is the score step, at N the open-ended step. At N+1, "確認提交回報" gives exactly `Submit`: history, flag, counters, `AfterUnlocks`, points, and the log's responses and completed end. Any other event at N+1 changes nothing. |
| ChatReport.ReportSession.RenderWalkStep | app.py:525-558 | Below N the new state is `ScoreStep` of the old one; at N it is `OpenEndedStep`. |
| ChatReport.ReportSession.RenderScoreStep | app.py:527-554 | The new state is `ScoreStep` of the old one. A score button 0..10 gives `ButtonScoreTurn`: that score goes under the current symptom, the index moves on by one, and "{score} 分" is shown and logged as a button press, followed by the reply. Non-empty text gives `TextTurn`. Any other event changes nothing. |
| ChatReport.ReportSession.RenderOpenEndedStep | app.py:556-558 | The new state is `OpenEndedStep` of the old one. The responses become `AnswersAfter` of the first two questions' answers. The index becomes N+1 exactly on skip or finish. The log grows by the responses' logger calls on finish, and by nothing otherwise. Scores, messages and records stay. |
| ChatReport.AllZeroReport | app.py:527-563 | Seven presses of 0, a skip and a submit end at N+1, with every symptom scored 0 and 10 points. |
| ChatReport.TypedNineAtPain | app.py:566-594 | "9分很痛" at the pain step scores pain 9, stores no description, and moves to the next symptom. |

## Left out

- Streamlit rendering is not modelled: CSS, markdown and HTML, columns, balloons and toasts, widget keys, `st.rerun`. A page run is one method call with at most one widget event.
- Page navigation (`current_page`) is not modelled. Only `onChatPage` is kept, and the voice call's "拒接" button only navigates away.
- The sidebar's "🏠 首頁" button (`app.py:973-975`) is not modelled. It leaves the chat page without ending the logger session. In the model, the only way off the chat page is `LeaveChat`, which always logs the abandoned end.
- The logger, the expert-template provider and the patient model are not part of this model. They are represented by the ghost `log`, an `Option<Template>` argument, and nothing, respectively.
- `OPEN_ENDED_QUESTIONS` is an argument; its contents are not modelled.
- The clock is not modelled. `today`, the report id and the session id are arguments; the time of day in the history entry is dropped.
- The call timer and the call duration are clock readings and are not modelled.
- Replies are tags, not their full Chinese text. A tag records the template text or the default band, the echoed description, and the next question or the recap.
- Digits are ASCII `0`–`9`, and whitespace is a fixed set: space, tab, line feed, carriage return, vertical tab, form feed and U+3000. Python's `\d` and `str.strip()` accept more Unicode characters.
- The floating-point completion rate on the home page, the JSON export and the data-export page are display and I/O, and are not modelled.
- The statistics shown after submitting (`get_patient_stats`) are a logger query used only for display.
- The "返回首頁" button drawn after submitting (`app.py:913-915`) never takes effect, so no event models it. It is drawn only while "確認提交回報" reports a click. Clicking it starts a new run in which that click is gone, so the button is not drawn again and its click is lost.
- The history entry's two constant fields, `"completed": True` and `"method": "ai_chat"` (`app.py:866-872`), are not kept: every entry the chat report files has the same values.
- `DEMO_RESPONSES` and the `alert_threshold` fields are data no logic reads, and are not modelled.
- ChatReport.ReplySource: the provider's own source field is not modelled. A provider answer counts as an expert template, and a score reply without template text is marked AI-generated, as the code does. `ShowWelcome` marks the greeting as an expert template whenever the provider answered.
- ChatReport.ReportSession.Render: the submit button stays on screen after a submission, so pressing it again files the report again and awards the points again. The model allows this, as the code does.
- VoiceCall.VoiceCallSession.Render: the symptom summary and follow-up action in the closing line are modelled as values (`Recap`), not as the formatted sentence.
