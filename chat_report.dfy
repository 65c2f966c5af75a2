/** The AI chat report of app.py: the session state the page keeps between
    reruns (`st.session_state`), the guided walk through the seven symptoms,
    the optional open-ended questions and the submission bookkeeping. The
    conversation logger is the ghost, append-only `log` of the session; the
    expert-template provider is an optional `Template` passed in. */
module ChatReport {
  import opened Text
  import opened ScoreParser

  // ---------------------------------------------------------------------
  // Symptoms and the shapes of messages
  // ---------------------------------------------------------------------

  datatype Symptom = Symptom(id: string, name: string)

  /** The symptoms in the order the chat asks about them (`SYMPTOMS`). */
  const Symptoms: seq<Symptom> := [
    Symptom("pain", "疼痛"),
    Symptom("fatigue", "疲勞"),
    Symptom("dyspnea", "呼吸困難"),
    Symptom("cough", "咳嗽"),
    Symptom("sleep", "睡眠"),
    Symptom("appetite", "食慾"),
    Symptom("mood", "心情")
  ]

  /** The ids of all symptoms. */
  ghost const SymptomIds: set<string> := set i | 0 <= i < |Symptoms| :: Symptoms[i].id

  /** No two symptoms share an id. */
  lemma SymptomIdsDistinct()
    ensures forall i, j :: 0 <= i < j < |Symptoms| ==> Symptoms[i].id != Symptoms[j].id
  {
  }

  /** Where a message came from (`MessageSource`). */
  datatype Source = ExpertTemplate | AiGenerated | SystemAuto

  /** What the expert-template provider hands back when it has a text. */
  datatype Template = Template(text: string, templateId: Option<string>)

  /** `if not response` in app.py: no template, or an empty text. */
  predicate HasText(t: Option<Template>) {
    t.Some? && t.value.text != ""
  }

  /** The tone of the default reply to a score. */
  datatype Band = Reassuring | Monitoring | Escalating

  /** Up to 3 reassuring, up to 6 monitoring, above that escalating to the case manager. */
  function ReplyBand(score: int): (b: Band)
    ensures b == Reassuring <==> score <= 3
    ensures b == Monitoring <==> 3 < score <= 6
    ensures b == Escalating <==> score > 6
  {
    if score <= 3 then Reassuring else if score <= 6 then Monitoring else Escalating
  }

  datatype ReplyBody =
    | TemplateText(text: string)
    | DefaultReply(symptomId: string, score: int, band: Band)

  /** A line of the end-of-interview recap: the score (0 when missing) and the
      description shortened to 20 characters ("" when none). */
  datatype RecapLine = RecapLine(symptomId: string, score: int, description: string)

  /** What follows the reply to a score: the next symptom's question, or the recap. */
  datatype FollowOn = NextQuestion(next: nat) | Recap(lines: seq<RecapLine>)

  /** Assistant replies, modelled by what they carry rather than by their full text. */
  datatype Reply =
    | Welcome(template: Option<string>)
    | FirstQuestion
    | AskForScore(symptomId: string)
    | ScoreReply(body: ReplyBody, echo: Option<string>, followOn: FollowOn)

  datatype ChatMessage =
    | UserMessage(content: string)
    | AssistantMessage(reply: Reply, source: Source, templateId: Option<string>)

  /** How a score arrived: a score button, or typed text that parsed to a score. */
  datatype ScoreInput = ButtonPress | TypedText(raw: string)

  datatype InputMethod = ByText | ByButton

  datatype CompletionType = Completed | Abandoned

  datatype OpenQuestion = OpenQuestion(questionId: string, questionText: string, category: string)

  datatype OpenResponse = OpenResponse(questionId: string, questionText: string, category: string, response: string)

  /** The calls made to the conversation logger. */
  datatype LogEvent =
    | SessionStarted(sessionId: string)
    | PatientInput(content: string, inputMethod: InputMethod, raw: Option<string>)
    | AiResponse(reply: Reply, source: Source, templateId: Option<string>)
    | OpenEndedLogged(reportId: string, questionId: string, questionText: string, category: string, response: string)
    | SessionEnded(sessionId: string, completion: CompletionType)

  datatype Achievement = Achievement(id: string, unlocked: bool, date: Option<string>)

  datatype Compliance = Compliance(currentStreak: int, bestStreak: int, totalCompleted: int, totalDays: int, points: int, level: int)

  /** What `report_history[today]` keeps of a submitted report (the time of day is not modelled). */
  datatype ReportRecord = ReportRecord(scores: map<string, int>, descriptions: map<string, string>, openEndedCount: nat, sessionId: Option<string>)

  /** The walk's part of a session at one moment: the step index, the scores, the
      descriptions and the open-ended answers. */
  datatype Walk = Walk(index: int, scores: map<string, int>, descriptions: map<string, string>, openEnded: seq<OpenResponse>)

  /** What a submission updates: the counters, the achievements, the history and the reported-today flag. */
  datatype Records = Records(compliance: Compliance, achievements: seq<Achievement>,
                             reportHistory: map<string, ReportRecord>, todayReported: bool)

  /** The chat page's state at one moment: the walk, the records, the messages shown and
      everything handed to the logger. */
  datatype ChatState = ChatState(walk: Walk, records: Records, messages: seq<ChatMessage>, log: seq<LogEvent>)

  // ---------------------------------------------------------------------
  // Pieces of a score turn
  // ---------------------------------------------------------------------

  /** The user message of a score turn: the typed text when there is one, else "{score} 分". */
  function UserContent(score: nat, input: ScoreInput): (content: string)
    ensures content != ""
  {
    if input.TypedText? && input.raw != "" then input.raw else ScoreText(score)
  }

  /** The user message keeps the patient's own words when typed; a button press is
      shown as a text that parses back to the score pressed. */
  lemma UserContentCarriesScore(score: int, input: ScoreInput)
    requires 0 <= score <= 10
    ensures input.TypedText? && input.raw != "" ==> UserContent(score, input) == input.raw
    ensures input.ButtonPress? ==> ParseScore(UserContent(score, input)) == Some(score)
  {
    ScoreTextParsesBack(score);
  }

  /** The recorded description echoed in a reply, cut to its first 50 characters plus "..." when longer. */
  function Echo(descriptions: map<string, string>, id: string): (e: Option<string>)
    ensures e.Some? <==> id in descriptions
    ensures e.Some? && |descriptions[id]| <= 50 ==> e.value == descriptions[id]
    ensures e.Some? && |descriptions[id]| > 50 ==> e.value == descriptions[id][..50] + "..."
  {
    if id in descriptions then Some(Abbreviate(descriptions[id], 50)) else None
  }

  /** The recap shown after the last symptom, one line per symptom in interview order. */
  function RecapLines(scores: map<string, int>, descriptions: map<string, string>): (lines: seq<RecapLine>)
    ensures |lines| == |Symptoms|
    ensures forall i :: 0 <= i < |lines| ==> lines[i].symptomId == Symptoms[i].id
    ensures forall i :: 0 <= i < |lines| ==>
      && lines[i].score == (if Symptoms[i].id in scores then scores[Symptoms[i].id] else 0)
      && lines[i].description == (if Symptoms[i].id in descriptions then Abbreviate(descriptions[Symptoms[i].id], 20) else "")
  {
    seq(|Symptoms|, i requires 0 <= i < |Symptoms| =>
      var id := Symptoms[i].id;
      RecapLine(id, if id in scores then scores[id] else 0,
                if id in descriptions then Abbreviate(descriptions[id], 20) else ""))
  }

  /** The assistant's answer to a score for the symptom at `index`, given the scores and
      descriptions after recording it: the template text when the provider has one,
      else the default reply of the score's band; then the echoed description; then
      the next question, or the recap after the last symptom. */
  function ScoreReplyFor(index: nat, score: int, template: Option<Template>,
                         scores: map<string, int>, descriptions: map<string, string>): (r: Reply)
    requires index < |Symptoms|
    ensures r.ScoreReply?
    ensures HasText(template) <==> r.body.TemplateText?
    ensures r.body.DefaultReply? ==> r.body.band == ReplyBand(score) && r.body.symptomId == Symptoms[index].id
    ensures r.echo == Echo(descriptions, Symptoms[index].id)
    ensures r.followOn.NextQuestion? <==> index + 1 < |Symptoms|
    ensures r.followOn.NextQuestion? ==> r.followOn.next == index + 1
  {
    var body := if HasText(template) then TemplateText(template.value.text)
                else DefaultReply(Symptoms[index].id, score, ReplyBand(score));
    var followOn := if index + 1 < |Symptoms| then NextQuestion(index + 1) else Recap(RecapLines(scores, descriptions));
    ScoreReply(body, Echo(descriptions, Symptoms[index].id), followOn)
  }

  function ReplySource(template: Option<Template>): Source {
    if HasText(template) then ExpertTemplate else AiGenerated
  }

  /** The provider's template id is passed on whether or not its text was used. */
  function TemplateIdOf(template: Option<Template>): Option<string> {
    if template.Some? then template.value.templateId else None
  }

  // ---------------------------------------------------------------------
  // Open-ended responses
  // ---------------------------------------------------------------------

  /** `[r.get('question_id') for r in open_ended_responses]`. */
  function QuestionIds(rs: seq<OpenResponse>): (ids: seq<string>)
    ensures |ids| == |rs|
    ensures forall i :: 0 <= i < |rs| ==> ids[i] == rs[i].questionId
    ensures forall q :: q in ids <==> exists i :: 0 <= i < |rs| && rs[i].questionId == q
  {
    seq(|rs|, i requires 0 <= i < |rs| => rs[i].questionId)
  }

  lemma QuestionIdsAppend(rs: seq<OpenResponse>, r: OpenResponse)
    ensures QuestionIds(rs + [r]) == QuestionIds(rs) + [r.questionId]
  {
  }

  /** No question id occurs twice among the responses. */
  predicate DistinctQuestions(rs: seq<OpenResponse>) {
    forall i, j :: 0 <= i < j < |rs| ==> rs[i].questionId != rs[j].questionId
  }

  /** A non-empty answer to a question not yet answered is appended; anything else changes nothing. */
  function AddAnswer(rs: seq<OpenResponse>, q: OpenQuestion, response: string): (r: seq<OpenResponse>)
    ensures rs <= r && |r| <= |rs| + 1
    ensures DistinctQuestions(rs) ==> DistinctQuestions(r)
    ensures response != "" ==> q.questionId in QuestionIds(r)
    ensures q.questionId in QuestionIds(rs) ==> r == rs
    ensures response == "" ==> r == rs
    ensures |r| == |rs| + 1 ==> r[|rs|] == OpenResponse(q.questionId, q.questionText, q.category, response)
  {
    if response != "" && q.questionId !in QuestionIds(rs) then
      var r := rs + [OpenResponse(q.questionId, q.questionText, q.category, response)];
      assert QuestionIds(r)[|rs|] == q.questionId;
      r
    else rs
  }

  /** The text typed into the i-th question's box ("" when nothing was typed). */
  function TypedAt(typed: seq<string>, i: nat): string {
    if i < |typed| then typed[i] else ""
  }

  /** The responses after one rendering of the first `k` questions, in order. */
  function AnswersAfter(rs: seq<OpenResponse>, qs: seq<OpenQuestion>, typed: seq<string>, k: nat): (r: seq<OpenResponse>)
    requires k <= |qs|
    ensures rs <= r && |r| <= |rs| + k
  {
    if k == 0 then rs else AddAnswer(AnswersAfter(rs, qs, typed, k - 1), qs[k - 1], TypedAt(typed, k - 1))
  }

  /** An id present among some responses is still present once more are appended. */
  lemma QuestionIdsGrow(a: seq<OpenResponse>, b: seq<OpenResponse>, q: string)
    requires a <= b && q in QuestionIds(a)
    ensures q in QuestionIds(b)
  {
    var i :| 0 <= i < |a| && a[i].questionId == q;
    assert b[i] == a[i];
  }

  /** Rendering the questions never gives a question a second entry. */
  lemma {:induction false} AnswersAfterKeeps(rs: seq<OpenResponse>, qs: seq<OpenQuestion>, typed: seq<string>, k: nat)
    requires k <= |qs|
    ensures DistinctQuestions(rs) ==> DistinctQuestions(AnswersAfter(rs, qs, typed, k))
  {
    if k > 0 {
      AnswersAfterKeeps(rs, qs, typed, k - 1);
      var prev := AnswersAfter(rs, qs, typed, k - 1);
      assert AnswersAfter(rs, qs, typed, k) == AddAnswer(prev, qs[k - 1], TypedAt(typed, k - 1));
    }
  }

  /** Once rendered with a non-empty answer, a question has an entry; ids already answered stay answered. */
  lemma {:induction false} AnswersAfterRecords(rs: seq<OpenResponse>, qs: seq<OpenQuestion>, typed: seq<string>, k: nat, i: nat)
    requires i < k <= |qs| && TypedAt(typed, i) != ""
    ensures qs[i].questionId in QuestionIds(AnswersAfter(rs, qs, typed, k))
  {
    var prev := AnswersAfter(rs, qs, typed, k - 1);
    var next := AddAnswer(prev, qs[k - 1], TypedAt(typed, k - 1));
    assert AnswersAfter(rs, qs, typed, k) == next;
    if i < k - 1 {
      AnswersAfterRecords(rs, qs, typed, k - 1, i);
      QuestionIdsGrow(prev, next, qs[i].questionId);
    }
  }

  /** The logger calls of `save_open_ended_responses`: one per response with a non-empty
      text, carrying its question id, question text, category and answer. */
  function OpenEndedEvents(reportId: string, rs: seq<OpenResponse>): (evs: seq<LogEvent>)
    ensures |evs| <= |rs|
    ensures forall e :: e in evs ==> e.OpenEndedLogged? && e.reportId == reportId && e.response != ""
  {
    if rs == [] then []
    else
      var head := if rs[0].response != "" then [OpenEndedLogged(reportId, rs[0].questionId, rs[0].questionText, rs[0].category, rs[0].response)] else [];
      head + OpenEndedEvents(reportId, rs[1..])
  }

  lemma OpenEndedEventsAppend(reportId: string, rs: seq<OpenResponse>, r: OpenResponse)
    ensures OpenEndedEvents(reportId, rs + [r]) ==
      OpenEndedEvents(reportId, rs) + (if r.response != "" then [OpenEndedLogged(reportId, r.questionId, r.questionText, r.category, r.response)] else [])
  {
    if rs != [] {
      assert (rs + [r])[1..] == rs[1..] + [r];
      OpenEndedEventsAppend(reportId, rs[1..], r);
    }
  }

  // ---------------------------------------------------------------------
  // Submission bookkeeping
  // ---------------------------------------------------------------------

  /** The achievement after the unlock pass for `id`: only a locked `id` changes, to unlocked today. */
  function Unlocked(a: Achievement, id: string, today: string): (r: Achievement)
    ensures r.id == a.id
    ensures r.unlocked == (a.unlocked || a.id == id)
    ensures a.unlocked || a.id != id ==> r == a
    ensures !a.unlocked && a.id == id ==> r.date == Some(today)
  {
    if a.id == id && !a.unlocked then a.(unlocked := true, date := Some(today)) else a
  }

  /** The whole list after the unlock pass for `id`, achievement by achievement. */
  function UnlockAll(achievements: seq<Achievement>, id: string, today: string): (r: seq<Achievement>)
    ensures |r| == |achievements|
    ensures forall k :: 0 <= k < |r| ==> r[k].id == achievements[k].id
  {
    if achievements == [] then []
    else UnlockAll(achievements[..|achievements| - 1], id, today) + [Unlocked(achievements[|achievements| - 1], id, today)]
  }

  /** The unlock pass treats each achievement on its own: only a locked `id` entry changes. */
  lemma {:induction false} UnlockAllAt(achievements: seq<Achievement>, id: string, today: string, k: nat)
    requires k < |achievements|
    ensures UnlockAll(achievements, id, today)[k] == Unlocked(achievements[k], id, today)
  {
    var n := |achievements| - 1;
    if k < n {
      UnlockAllAt(achievements[..n], id, today, k);
    }
  }

  /** A second unlock pass for the same id changes nothing. */
  lemma UnlockAllIdempotent(achievements: seq<Achievement>, id: string, today: string, later: string)
    ensures UnlockAll(UnlockAll(achievements, id, today), id, later) == UnlockAll(achievements, id, today)
  {
    var once := UnlockAll(achievements, id, today);
    forall k | 0 <= k < |achievements|
      ensures UnlockAll(once, id, later)[k] == once[k]
    {
      UnlockAllAt(achievements, id, today, k);
      UnlockAllAt(once, id, later, k);
    }
  }

  /** The achievements after a submission: streak-14 unlocks from a streak of 14, the
      describer badge when the report carried a description or an open-ended answer. */
  function AfterUnlocks(achievements: seq<Achievement>, streak: int, described: bool, today: string): (r: seq<Achievement>)
    ensures |r| == |achievements|
    ensures forall k :: 0 <= k < |r| ==> r[k].id == achievements[k].id
  {
    var afterStreak := if streak >= 14 then UnlockAll(achievements, "streak_14", today) else achievements;
    if described then UnlockAll(afterStreak, "first_description", today) else afterStreak
  }

  /** A submission only unlocks: every achievement keeps its id and place, an unlocked one
      stays exactly as it was, and only streak_14 or first_description can change, each
      exactly when it is earned. */
  lemma AfterUnlocksOnlyUnlocks(achievements: seq<Achievement>, streak: int, described: bool, today: string, k: nat)
    requires k < |achievements|
    ensures |AfterUnlocks(achievements, streak, described, today)| == |achievements|
    ensures AfterUnlocks(achievements, streak, described, today)[k].id == achievements[k].id
    ensures achievements[k].unlocked ==> AfterUnlocks(achievements, streak, described, today)[k] == achievements[k]
    ensures achievements[k].id != "streak_14" && achievements[k].id != "first_description" ==>
      AfterUnlocks(achievements, streak, described, today)[k] == achievements[k]
    ensures streak >= 14 && achievements[k].id == "streak_14" ==> AfterUnlocks(achievements, streak, described, today)[k].unlocked
    ensures described && achievements[k].id == "first_description" ==> AfterUnlocks(achievements, streak, described, today)[k].unlocked
    ensures streak < 14 && achievements[k].id == "streak_14" ==> AfterUnlocks(achievements, streak, described, today)[k] == achievements[k]
    ensures !described && achievements[k].id == "first_description" ==> AfterUnlocks(achievements, streak, described, today)[k] == achievements[k]
  {
    var afterStreak := if streak >= 14 then UnlockAll(achievements, "streak_14", today) else achievements;
    if streak >= 14 { UnlockAllAt(achievements, "streak_14", today, k); }
    if described { UnlockAllAt(afterStreak, "first_description", today, k); }
  }

  /** Points for a submitted report: 10, plus 2 per description and 5 per open-ended response. */
  function ReportPoints(descriptionCount: nat, openEndedCount: nat): (p: nat)
    ensures p >= 10
    ensures descriptionCount == 0 && openEndedCount == 0 ==> p == 10
  {
    10 + 2 * descriptionCount + 5 * openEndedCount
  }

  // ---------------------------------------------------------------------
  // The walk's invariant
  // ---------------------------------------------------------------------

  /** The step index lies in 0..N+1; exactly the symptoms before the index are scored,
      each with a score in 0..10; descriptions exist only for symptoms up to the current
      one; and no open-ended question is answered twice. */
  ghost predicate WalkState(index: int, scores: map<string, int>, descriptions: map<string, string>, openEnded: seq<OpenResponse>) {
    && 0 <= index <= |Symptoms| + 1
    && scores.Keys <= SymptomIds
    && (forall i :: 0 <= i < |Symptoms| ==> (Symptoms[i].id in scores <==> i < index))
    && (forall id :: id in scores ==> 0 <= scores[id] <= 10)
    && descriptions.Keys <= SymptomIds
    && (forall i :: 0 <= i < |Symptoms| && index < i ==> Symptoms[i].id !in descriptions)
    && DistinctQuestions(openEnded)
  }

  /** Scoring the current symptom and stepping on keeps the invariant. */
  lemma ScoreStepKeeps(index: int, scores: map<string, int>, descriptions: map<string, string>, openEnded: seq<OpenResponse>, score: int)
    requires WalkState(index, scores, descriptions, openEnded)
    requires index < |Symptoms| && 0 <= score <= 10
    ensures WalkState(index + 1, scores[Symptoms[index].id := score], descriptions, openEnded)
  {
    SymptomIdsDistinct();
  }

  /** Recording a description of the current symptom keeps the invariant. */
  lemma DescribeKeeps(index: int, scores: map<string, int>, descriptions: map<string, string>, openEnded: seq<OpenResponse>, d: string)
    requires WalkState(index, scores, descriptions, openEnded)
    requires index < |Symptoms|
    ensures WalkState(index, scores, descriptions[Symptoms[index].id := d], openEnded)
  {
    SymptomIdsDistinct();
  }

  /** The walk a fresh chat starts from. */
  lemma EmptyWalk()
    ensures WalkState(0, map[], map[], [])
  {
  }

  /** Leaving the open-ended step for the submit step keeps the invariant. */
  lemma FinishWalkKeeps(scores: map<string, int>, descriptions: map<string, string>, openEnded: seq<OpenResponse>)
    requires WalkState(|Symptoms|, scores, descriptions, openEnded)
    ensures WalkState(|Symptoms| + 1, scores, descriptions, openEnded)
  {
  }

  const InitialCompliance := Compliance(7, 12, 12, 14, 180, 3)

  const InitialAchievements: seq<Achievement> := [
    Achievement("first_report", true, Some("2024-12-15")),
    Achievement("streak_3", true, Some("2024-12-18")),
    Achievement("streak_7", true, Some("2024-12-22")),
    Achievement("streak_14", false, None),
    Achievement("streak_21", false, None),
    Achievement("first_description", false, None)
  ]

  /** One rendering of the chat page with at most one widget used. */
  datatype OpenEndedChoice = NoChoice | SkipAndSubmit | FinishAndSubmit

  datatype ChatEvent =
    | Idle
    | BackHome
    | ScorePressed(score: int)
    | TextEntered(text: string)
    | OpenEndedRun(typed: seq<string>, choice: OpenEndedChoice)
    | ConfirmSubmit

  /** The two messages an empty chat opens with: the greeting (the provider's text, else
      the default, marked as an expert template whenever the provider answered) and the
      first question. */
  function WelcomeMessages(greeting: Option<Template>): (msgs: seq<ChatMessage>)
    ensures |msgs| == 2 && msgs[1] == AssistantMessage(FirstQuestion, SystemAuto, None)
    ensures msgs[0].AssistantMessage? && msgs[0].reply == Welcome(if HasText(greeting) then Some(greeting.value.text) else None)
  {
    var source := if greeting.Some? then ExpertTemplate else AiGenerated;
    var welcome := Welcome(if HasText(greeting) then Some(greeting.value.text) else None);
    [AssistantMessage(welcome, source, TemplateIdOf(greeting)), AssistantMessage(FirstQuestion, SystemAuto, None)]
  }

  /** The logger calls for the two opening messages, one per message and in the same order. */
  function WelcomeEvents(greeting: Option<Template>): (evs: seq<LogEvent>)
    ensures |evs| == 2
    ensures forall i :: 0 <= i < 2 ==>
      var m := WelcomeMessages(greeting)[i];
      m.AssistantMessage? && evs[i] == AiResponse(m.reply, m.source, m.templateId)
  {
    var source := if greeting.Some? then ExpertTemplate else AiGenerated;
    var welcome := Welcome(if HasText(greeting) then Some(greeting.value.text) else None);
    [AiResponse(welcome, source, TemplateIdOf(greeting)), AiResponse(FirstQuestion, SystemAuto, None)]
  }

  // ---------------------------------------------------------------------
  // One run of the chat page, as a function of the state
  // ---------------------------------------------------------------------

  /** An empty chat gets the greeting and the first question, shown and logged; a chat
      with messages is left as it is. */
  function Opened(c: ChatState, greeting: Option<Template>): ChatState {
    if c.messages == [] then c.(messages := WelcomeMessages(greeting), log := c.log + WelcomeEvents(greeting))
    else c
  }

  /** A score at a score step: the score goes under the current symptom's id, and so does
      the description `d` when it is not empty; the step moves on by one; the user's line
      `shown` is shown and logged as `logged`, and the reply follows. */
  function ScoredTurn(c: ChatState, score: int, shown: string, logged: LogEvent, d: string, template: Option<Template>): ChatState
    requires 0 <= c.walk.index < |Symptoms|
  {
    var w := c.walk;
    var id := Symptoms[w.index].id;
    var scores := w.scores[id := score];
    var descriptions := if d != "" then w.descriptions[id := d] else w.descriptions;
    var reply := ScoreReplyFor(w.index, score, template, scores, descriptions);
    c.(walk := w.(index := w.index + 1, scores := scores, descriptions := descriptions),
       messages := c.messages + [UserMessage(shown), AssistantMessage(reply, ReplySource(template), TemplateIdOf(template))],
       log := c.log + [logged, AiResponse(reply, ReplySource(template), TemplateIdOf(template))])
  }

  /** A state that has the parts a score turn produces is that turn's result. */
  lemma ScoredTurnFrom(c: ChatState, score: int, shown: string, logged: LogEvent, d: string, template: Option<Template>, r: ChatState)
    requires 0 <= c.walk.index < |Symptoms|
    requires r.walk.index == c.walk.index + 1 && r.walk.scores == c.walk.scores[Symptoms[c.walk.index].id := score]
    requires r.walk.descriptions == if d != "" then c.walk.descriptions[Symptoms[c.walk.index].id := d] else c.walk.descriptions
    requires r.walk.openEnded == c.walk.openEnded && r.records == c.records
    requires var reply := ScoreReplyFor(c.walk.index, score, template, r.walk.scores, r.walk.descriptions);
             && r.messages == c.messages + [UserMessage(shown), AssistantMessage(reply, ReplySource(template), TemplateIdOf(template))]
             && r.log == c.log + [logged, AiResponse(reply, ReplySource(template), TemplateIdOf(template))]
    ensures r == ScoredTurn(c, score, shown, logged, d, template)
  {
  }

  /** A score button: "{score} 分" is shown and logged as a button input. */
  function ButtonScoreTurn(c: ChatState, score: int, template: Option<Template>): ChatState
    requires 0 <= c.walk.index < |Symptoms| && 0 <= score <= 10
  {
    ScoredTurn(c, score, ScoreText(score), PatientInput(ScoreText(score), ByButton, None), "", template)
  }

  /** Typed text with a score: the text is shown and logged verbatim, and what is left of
      it once the score is taken out is the description. */
  function TypedScoreTurn(c: ChatState, text: string, score: nat, template: Option<Template>): ChatState
    requires 0 <= c.walk.index < |Symptoms|
  {
    ScoredTurn(c, score, text, PatientInput(text, ByText, Some(text)), ExtractDescription(text, score), template)
  }

  /** Typed text without a score: it is logged and becomes the current symptom's
      description, the assistant asks for a number, and the step stays put. */
  function DescriptionOnlyTurn(c: ChatState, text: string): ChatState
    requires 0 <= c.walk.index < |Symptoms|
  {
    var id := Symptoms[c.walk.index].id;
    c.(walk := c.walk.(descriptions := c.walk.descriptions[id := text]),
       messages := c.messages + [UserMessage(text), AssistantMessage(AskForScore(id), SystemAuto, None)],
       log := c.log + [PatientInput(text, ByText, Some(text)), AiResponse(AskForScore(id), SystemAuto, None)])
  }

  /** Typed text at a score step, by whether it parses to a score. */
  function TextTurn(c: ChatState, text: string, template: Option<Template>): ChatState
    requires 0 <= c.walk.index < |Symptoms|
  {
    var parsed := ParseScore(text);
    if parsed.Some? then TypedScoreTurn(c, text, parsed.value, template) else DescriptionOnlyTurn(c, text)
  }

  /** A score step takes a score button in 0..10 or non-empty typed text; any other event changes nothing. */
  function ScoreStep(c: ChatState, e: ChatEvent, template: Option<Template>): ChatState
    requires 0 <= c.walk.index < |Symptoms|
  {
    if e.ScorePressed? && 0 <= e.score <= 10 then ButtonScoreTurn(c, e.score, template)
    else if e.TextEntered? && e.text != "" then TextTurn(c, e.text, template)
    else c
  }

  /** The open-ended step: the first two questions' answers are recorded as one run of
      `AnswersAfter`; a skip or a finish moves to the submit step, and a finish logs the
      responses. */
  function OpenEndedStep(c: ChatState, e: ChatEvent, questions: seq<OpenQuestion>, reportId: string): ChatState {
    var typed := if e.OpenEndedRun? then e.typed else [];
    var answers := AnswersAfter(c.walk.openEnded, questions, typed, if |questions| < 2 then |questions| else 2);
    var moved := e.OpenEndedRun? && !e.choice.NoChoice?;
    var finish := e.OpenEndedRun? && e.choice.FinishAndSubmit?;
    c.(walk := c.walk.(index := if moved then |Symptoms| + 1 else c.walk.index, openEnded := answers),
       log := c.log + (if finish then OpenEndedEvents(reportId, answers) else []))
  }

  /** "確認提交回報": the report is filed under `today` with the logger session's id, the
      streak and the total are counted, the earned achievements unlocked and the points
      added; the responses are logged and the logger session, if any, ends as completed. */
  function Submit(c: ChatState, sessionId: Option<string>, today: string, reportId: string): ChatState {
    var w := c.walk;
    var r := c.records;
    var compliance := r.compliance.(currentStreak := r.compliance.currentStreak + 1,
                                    totalCompleted := r.compliance.totalCompleted + 1,
                                    points := r.compliance.points + ReportPoints(|w.descriptions|, |w.openEnded|));
    var achievements := AfterUnlocks(r.achievements, compliance.currentStreak, |w.descriptions| > 0 || |w.openEnded| > 0, today);
    var history := r.reportHistory[today := ReportRecord(w.scores, w.descriptions, |w.openEnded|, sessionId)];
    c.(records := Records(compliance, achievements, history, true),
       log := c.log + OpenEndedEvents(reportId, w.openEnded)
              + (if sessionId.Some? && sessionId.value != "" then [SessionEnded(sessionId.value, Completed)] else []))
  }

  /** `render_ai_chat` once the chat has its greeting, by the step index: a score step
      below N, the open-ended step at N, the submit button at N+1, where any other event
      changes nothing. */
  function Step(c: ChatState, sessionId: Option<string>, e: ChatEvent, symptomReply: Option<Template>,
                questions: seq<OpenQuestion>, reportId: string, today: string): ChatState
    requires 0 <= c.walk.index
  {
    if c.walk.index < |Symptoms| then ScoreStep(c, e, symptomReply)
    else if c.walk.index == |Symptoms| then OpenEndedStep(c, e, questions, reportId)
    else if e.ConfirmSubmit? then Submit(c, sessionId, today, reportId)
    else c
  }

  /** A run only adds: the messages and the log grow, the index moves on by at most one,
      scored symptoms stay scored and answers are only appended. */
  lemma StepOnlyAdds(c: ChatState, sessionId: Option<string>, e: ChatEvent, symptomReply: Option<Template>,
                     questions: seq<OpenQuestion>, reportId: string, today: string)
    requires 0 <= c.walk.index
    ensures var r := Step(c, sessionId, e, symptomReply, questions, reportId, today);
            && c.messages <= r.messages && c.log <= r.log
            && c.walk.index <= r.walk.index <= c.walk.index + 1
            && c.walk.scores.Keys <= r.walk.scores.Keys
            && c.walk.openEnded <= r.walk.openEnded
  {
    if c.walk.index < |Symptoms| {
      ScoreStepOnlyAdds(c, e, symptomReply);
    }
  }

  /** The same holds for a whole run, greeting included. */
  lemma RunOnlyAdds(c: ChatState, greeting: Option<Template>, sessionId: Option<string>, e: ChatEvent,
                    symptomReply: Option<Template>, questions: seq<OpenQuestion>, reportId: string, today: string)
    requires 0 <= c.walk.index
    ensures var r := Step(Opened(c, greeting), sessionId, e, symptomReply, questions, reportId, today);
            && c.messages <= r.messages && c.log <= r.log
            && c.walk.index <= r.walk.index <= c.walk.index + 1
            && c.walk.scores.Keys <= r.walk.scores.Keys
            && c.walk.openEnded <= r.walk.openEnded
  {
    StepOnlyAdds(Opened(c, greeting), sessionId, e, symptomReply, questions, reportId, today);
  }

  lemma ScoreStepOnlyAdds(c: ChatState, e: ChatEvent, template: Option<Template>)
    requires 0 <= c.walk.index < |Symptoms|
    ensures var r := ScoreStep(c, e, template);
            && c.messages <= r.messages && c.log <= r.log
            && c.walk.index <= r.walk.index <= c.walk.index + 1
            && c.walk.scores.Keys <= r.walk.scores.Keys
            && c.walk.openEnded == r.walk.openEnded
  {
  }

  /** A run keeps the walk's invariant. */
  lemma StepKeepsWalk(c: ChatState, sessionId: Option<string>, e: ChatEvent, symptomReply: Option<Template>,
                      questions: seq<OpenQuestion>, reportId: string, today: string)
    requires WalkState(c.walk.index, c.walk.scores, c.walk.descriptions, c.walk.openEnded)
    ensures var w := Step(c, sessionId, e, symptomReply, questions, reportId, today).walk;
            WalkState(w.index, w.scores, w.descriptions, w.openEnded)
  {
    if c.walk.index < |Symptoms| {
      ScoreStepKeepsWalk(c, e, symptomReply);
    } else if c.walk.index == |Symptoms| {
      OpenEndedStepKeepsWalk(c, e, questions, reportId);
    }
  }

  lemma ScoreStepKeepsWalk(c: ChatState, e: ChatEvent, template: Option<Template>)
    requires WalkState(c.walk.index, c.walk.scores, c.walk.descriptions, c.walk.openEnded)
    requires c.walk.index < |Symptoms|
    ensures var w := ScoreStep(c, e, template).walk;
            WalkState(w.index, w.scores, w.descriptions, w.openEnded)
  {
    var w := c.walk;
    if e.ScorePressed? && 0 <= e.score <= 10 {
      ScoreStepKeeps(w.index, w.scores, w.descriptions, w.openEnded, e.score);
    } else if e.TextEntered? && e.text != "" {
      TextTurnKeepsWalk(c, e.text, template);
    }
  }

  lemma TextTurnKeepsWalk(c: ChatState, text: string, template: Option<Template>)
    requires WalkState(c.walk.index, c.walk.scores, c.walk.descriptions, c.walk.openEnded)
    requires c.walk.index < |Symptoms|
    ensures var w := TextTurn(c, text, template).walk;
            WalkState(w.index, w.scores, w.descriptions, w.openEnded)
  {
    var w := c.walk;
    var parsed := ParseScore(text);
    if parsed.Some? {
      var d := ExtractDescription(text, parsed.value);
      var descriptions := if d != "" then w.descriptions[Symptoms[w.index].id := d] else w.descriptions;
      DescribeKeeps(w.index, w.scores, w.descriptions, w.openEnded, d);
      ScoreStepKeeps(w.index, w.scores, descriptions, w.openEnded, parsed.value);
    } else {
      DescribeKeeps(w.index, w.scores, w.descriptions, w.openEnded, text);
    }
  }

  lemma OpenEndedStepKeepsWalk(c: ChatState, e: ChatEvent, questions: seq<OpenQuestion>, reportId: string)
    requires WalkState(c.walk.index, c.walk.scores, c.walk.descriptions, c.walk.openEnded)
    requires c.walk.index == |Symptoms|
    ensures var w := OpenEndedStep(c, e, questions, reportId).walk;
            WalkState(w.index, w.scores, w.descriptions, w.openEnded)
  {
    var w := c.walk;
    var typed := if e.OpenEndedRun? then e.typed else [];
    var answers := AnswersAfter(w.openEnded, questions, typed, if |questions| < 2 then |questions| else 2);
    AnswersAfterKeeps(w.openEnded, questions, typed, if |questions| < 2 then |questions| else 2);
    FinishWalkKeeps(w.scores, w.descriptions, answers);
  }

  // ---------------------------------------------------------------------
  // The session state
  // ---------------------------------------------------------------------

  class ReportSession {
    /** 0..N-1: scoring that symptom; N: open-ended questions; N+1: ready to submit. */
    var currentIndex: int
    var scores: map<string, int>
    var descriptions: map<string, string>
    var openEnded: seq<OpenResponse>
    var messages: seq<ChatMessage>
    var compliance: Compliance
    var achievements: seq<Achievement>
    var todayReported: bool
    var reportHistory: map<string, ReportRecord>
    var sessionId: Option<string>
    var onChatPage: bool
    /** Everything handed to the conversation logger, in order. */
    ghost var log: seq<LogEvent>

    ghost predicate Valid()
      reads this`currentIndex, this`scores, this`descriptions, this`openEnded
    {
      WalkState(currentIndex, scores, descriptions, openEnded)
    }

    /** The chat page's state, as a value. */
    ghost function ChatNow(): ChatState
      reads this`currentIndex, this`scores, this`descriptions, this`openEnded, this`compliance,
            this`achievements, this`reportHistory, this`todayReported, this`messages, this`log
    {
      ChatState(Walk(currentIndex, scores, descriptions, openEnded),
                Records(compliance, achievements, reportHistory, todayReported), messages, log)
    }

    /** The state `init_session_state` sets up (the patient record is not modelled). */
    constructor ()
      ensures Valid()
      ensures currentIndex == 0 && scores == map[] && descriptions == map[] && openEnded == [] && messages == []
      ensures compliance == InitialCompliance && achievements == InitialAchievements
      ensures !todayReported && reportHistory == map[] && sessionId == None && !onChatPage && log == []
    {
      currentIndex := 0;
      scores := map[];
      descriptions := map[];
      openEnded := [];
      messages := [];
      compliance := InitialCompliance;
      achievements := InitialAchievements;
      todayReported := false;
      reportHistory := map[];
      sessionId := None;
      onChatPage := false;
      log := [];
    }

    /** The sidebar's developer option "🔄 重置今日回報": today counts as not reported again,
        so the home page offers the report once more. Nothing else changes. */
    method ResetToday()
      modifies this`todayReported
      ensures !todayReported
    {
      todayReported := false;
    }

    /** "AI 對話回報" on the home page: a logger session is opened and the chat starts afresh. */
    method StartChatReport(newSessionId: string)
      requires Valid() && !todayReported
      modifies this
      ensures Valid()
      ensures onChatPage && sessionId == Some(newSessionId)
      ensures currentIndex == 0 && scores == map[] && descriptions == map[] && openEnded == [] && messages == []
      ensures log == old(log) + [SessionStarted(newSessionId)]
      ensures compliance == old(compliance) && achievements == old(achievements)
      ensures todayReported == old(todayReported) && reportHistory == old(reportHistory)
    {
      log := log + [SessionStarted(newSessionId)];
      sessionId := Some(newSessionId);
      onChatPage := true;
      ResetWalk();
    }

    /** The chat history and the walk's state are cleared. */
    method ResetWalk()
      modifies this`messages, this`currentIndex, this`scores, this`descriptions, this`openEnded
      ensures Valid()
      ensures currentIndex == 0 && scores == map[] && descriptions == map[] && openEnded == [] && messages == []
    {
      EmptyWalk();
      messages := [];
      currentIndex := 0;
      scores := map[];
      descriptions := map[];
      openEnded := [];
    }

    /** "← 返回首頁" on the chat page: the logger session, if any, is closed as abandoned. */
    method LeaveChat()
      requires Valid()
      modifies this`onChatPage, this`log
      ensures Valid() && !onChatPage
      ensures log == old(log) + (if sessionId.Some? && sessionId.value != "" then [SessionEnded(sessionId.value, Abandoned)] else [])
    {
      if sessionId.Some? && sessionId.value != "" {
        log := log + [SessionEnded(sessionId.value, Abandoned)];
      }
      onChatPage := false;
    }

    /** An empty chat opens with the greeting (the provider's, else the default) and the first question. */
    method ShowWelcome(greeting: Option<Template>)
      requires Valid() && messages == []
      modifies this`messages, this`log
      ensures Valid()
      ensures messages == WelcomeMessages(greeting)
      ensures log == old(log) + WelcomeEvents(greeting)
    {
      var source := if greeting.Some? then ExpertTemplate else AiGenerated;
      var welcome := Welcome(if HasText(greeting) then Some(greeting.value.text) else None);
      log := log + [AiResponse(welcome, source, TemplateIdOf(greeting))];
      messages := messages + [AssistantMessage(welcome, source, TemplateIdOf(greeting))];
      log := log + [AiResponse(FirstQuestion, SystemAuto, None)];
      messages := messages + [AssistantMessage(FirstQuestion, SystemAuto, None)];
    }

    /** A score for the current symptom: the user message, the score under that symptom's
        id, one step on, and the reply. A button press is logged here; typed text was
        logged by the caller. Nothing stops a second call from advancing again. */
    method HandleScoreSelection(score: int, input: ScoreInput, template: Option<Template>)
      requires Valid() && currentIndex < |Symptoms| && 0 <= score <= 10
      modifies this`currentIndex, this`scores, this`messages, this`log
      ensures Valid()
      ensures currentIndex == old(currentIndex) + 1
      ensures scores == old(scores)[Symptoms[old(currentIndex)].id := score]
      ensures var reply := ScoreReplyFor(old(currentIndex), score, template, scores, descriptions);
              && messages == old(messages) + [UserMessage(UserContent(score, input)),
                                               AssistantMessage(reply, ReplySource(template), TemplateIdOf(template))]
              && (input.ButtonPress? ==> log == old(log) + [PatientInput(UserContent(score, input), ByButton, None),
                                                             AiResponse(reply, ReplySource(template), TemplateIdOf(template))])
              && (input.TypedText? ==> log == old(log) + [AiResponse(reply, ReplySource(template), TemplateIdOf(template))])
    {
      var index := currentIndex;
      var content := UserContent(score, input);
      AddUserTurn(content, if input.ButtonPress? then Some(ByButton) else None);
      ScoreStepKeeps(index, scores, descriptions, openEnded, score);
      scores := scores[Symptoms[index].id := score];
      currentIndex := index + 1;
      var reply := ScoreReplyFor(index, score, template, scores, descriptions);
      AddAssistantTurn(reply, ReplySource(template), TemplateIdOf(template));
    }

    /** The user's message of a turn, logged here as a patient input when `logged` names its input method. */
    method AddUserTurn(content: string, logged: Option<InputMethod>)
      modifies this`messages, this`log
      ensures messages == old(messages) + [UserMessage(content)]
      ensures log == old(log) + (if logged.Some? then [PatientInput(content, logged.value, None)] else [])
    {
      if logged.Some? {
        log := log + [PatientInput(content, logged.value, None)];
      }
      messages := messages + [UserMessage(content)];
    }

    /** An assistant message, logged as an AI response and then shown. */
    method AddAssistantTurn(reply: Reply, source: Source, templateId: Option<string>)
      modifies this`messages, this`log
      ensures messages == old(messages) + [AssistantMessage(reply, source, templateId)]
      ensures log == old(log) + [AiResponse(reply, source, templateId)]
    {
      log := log + [AiResponse(reply, source, templateId)];
      messages := messages + [AssistantMessage(reply, source, templateId)];
    }

    /** Typed text at a score step: logged verbatim first, then handled by whether it parses to a score. */
    method HandleTextInput(text: string, template: Option<Template>)
      requires Valid() && currentIndex < |Symptoms| && text != ""
      modifies this`currentIndex, this`scores, this`descriptions, this`messages, this`log
      ensures Valid()
      ensures ChatNow() == TextTurn(old(ChatNow()), text, template)
    {
      var parsed := ParseScore(text);
      if parsed.Some? {
        HandleTypedScore(text, parsed.value, template);
      } else {
        HandleDescriptionOnly(text);
      }
    }

    method HandleTypedScore(text: string, score: nat, template: Option<Template>)
      requires Valid() && currentIndex < |Symptoms| && score <= 10 && text != ""
      modifies this`currentIndex, this`scores, this`descriptions, this`messages, this`log
      ensures Valid()
      ensures ChatNow() == TypedScoreTurn(old(ChatNow()), text, score, template)
    {
      ghost var c0 := ChatNow();
      NoteTypedScore(text, score);
      assert UserContent(score, TypedText(text)) == text;
      ghost var mid := log;
      HandleScoreSelection(score, TypedText(text), template);
      ghost var reply := ScoreReplyFor(c0.walk.index, score, template, scores, descriptions);
      assert log == mid + [AiResponse(reply, ReplySource(template), TemplateIdOf(template))];
      assert log == c0.log + [PatientInput(text, ByText, Some(text)), AiResponse(reply, ReplySource(template), TemplateIdOf(template))];
      ScoredTurnFrom(c0, score, text, PatientInput(text, ByText, Some(text)), ExtractDescription(text, score), template, ChatNow());
    }

    /** Typed text with a score is logged verbatim, and its description, when one is left, is stored. */
    method NoteTypedScore(text: string, score: nat)
      requires Valid() && currentIndex < |Symptoms|
      modifies this`descriptions, this`log
      ensures Valid()
      ensures log == old(log) + [PatientInput(text, ByText, Some(text))]
      ensures var d := ExtractDescription(text, score);
              descriptions == if d != "" then old(descriptions)[Symptoms[currentIndex].id := d] else old(descriptions)
    {
      LogTypedInput(text);
      var d := ExtractDescription(text, score);
      if d != "" {
        Describe(d);
      }
    }

    method HandleDescriptionOnly(text: string)
      requires Valid() && currentIndex < |Symptoms| && text != ""
      modifies this`descriptions, this`messages, this`log
      ensures Valid()
      ensures ChatNow() == DescriptionOnlyTurn(old(ChatNow()), text)
    {
      var id := Symptoms[currentIndex].id;
      ghost var c0 := ChatNow();
      LogTypedInput(text);
      Describe(text);
      AddUserTurn(text, None);
      AddAssistantTurn(AskForScore(id), SystemAuto, None);
      assert messages == c0.messages + [UserMessage(text), AssistantMessage(AskForScore(id), SystemAuto, None)];
      assert log == c0.log + [PatientInput(text, ByText, Some(text)), AiResponse(AskForScore(id), SystemAuto, None)];
    }

    /** The current symptom's description is set to `d`. */
    method Describe(d: string)
      requires Valid() && currentIndex < |Symptoms|
      modifies this`descriptions
      ensures Valid()
      ensures descriptions == old(descriptions)[Symptoms[currentIndex].id := d]
    {
      DescribeKeeps(currentIndex, scores, descriptions, openEnded, d);
      descriptions := descriptions[Symptoms[currentIndex].id := d];
    }

    /** The verbatim log entry of typed text, made before anything is parsed. */
    method LogTypedInput(text: string)
      modifies this`log
      ensures log == old(log) + [PatientInput(text, ByText, Some(text))]
    {
      log := log + [PatientInput(text, ByText, Some(text))];
    }

    /** One rendering of the open-ended questions: for each of the first two, a non-empty
        answer is stored unless that question already has an entry. */
    method RecordOpenEndedAnswers(questions: seq<OpenQuestion>, typed: seq<string>)
      requires Valid()
      modifies this`openEnded
      ensures Valid()
      ensures openEnded == AnswersAfter(old(openEnded), questions, typed, if |questions| < 2 then |questions| else 2)
    {
      var count := if |questions| < 2 then |questions| else 2;
      var i := 0;
      while i < count
        invariant 0 <= i <= count
        invariant openEnded == AnswersAfter(old(openEnded), questions, typed, i)
        invariant DistinctQuestions(openEnded)
      {
        var q := questions[i];
        var response := TypedAt(typed, i);
        if response != "" && q.questionId !in QuestionIds(openEnded) {
          openEnded := openEnded + [OpenResponse(q.questionId, q.questionText, q.category, response)];
        }
        i := i + 1;
      }
    }

    /** `save_open_ended_responses`: each response with a text goes to the logger under `reportId`. */
    method SaveOpenEndedResponses(reportId: string)
      requires Valid()
      modifies this`log
      ensures Valid()
      ensures log == old(log) + OpenEndedEvents(reportId, openEnded)
    {
      var i := 0;
      while i < |openEnded|
        invariant 0 <= i <= |openEnded|
        invariant log == old(log) + OpenEndedEvents(reportId, openEnded[..i])
      {
        var r := openEnded[i];
        OpenEndedEventsAppend(reportId, openEnded[..i], r);
        assert openEnded[..i + 1] == openEnded[..i] + [r];
        if r.response != "" {
          log := log + [OpenEndedLogged(reportId, r.questionId, r.questionText, r.category, r.response)];
        }
        i := i + 1;
      }
      assert openEnded[..i] == openEnded;
    }

    /** "跳過，直接提交": straight to the submit step. */
    method SkipOpenEnded()
      requires Valid() && currentIndex == |Symptoms|
      modifies this`currentIndex
      ensures Valid() && currentIndex == |Symptoms| + 1
    {
      FinishWalkKeeps(scores, descriptions, openEnded);
      currentIndex := |Symptoms| + 1;
    }

    /** "完成並提交": the responses are logged and the submit step follows. */
    method FinishOpenEnded(reportId: string)
      requires Valid() && currentIndex == |Symptoms|
      modifies this`currentIndex, this`log
      ensures Valid() && currentIndex == |Symptoms| + 1
      ensures log == old(log) + OpenEndedEvents(reportId, openEnded)
    {
      SaveOpenEndedResponses(reportId);
      SkipOpenEnded();
    }

    /** The unlock pass over the achievements for one id, in place. */
    method UnlockAchievement(id: string, today: string)
      modifies this`achievements
      ensures achievements == UnlockAll(old(achievements), id, today)
    {
      ghost var before := achievements;
      var i := 0;
      while i < |achievements|
        invariant 0 <= i <= |achievements| == |before|
        invariant forall j :: 0 <= j < i ==> achievements[j] == Unlocked(before[j], id, today)
        invariant forall j :: i <= j < |before| ==> achievements[j] == before[j]
      {
        var a := achievements[i];
        if a.id == id && !a.unlocked {
          achievements := achievements[i := a.(unlocked := true, date := Some(today))];
        }
        i := i + 1;
      }
      forall k | 0 <= k < |before|
        ensures achievements[k] == UnlockAll(before, id, today)[k]
      {
        UnlockAllAt(before, id, today, k);
      }
    }

    /** The logger side of a submission: the responses are logged and the session is closed as completed. */
    method CloseLoggedReport(reportId: string)
      requires Valid()
      modifies this`log
      ensures Valid()
      ensures log == old(log) + OpenEndedEvents(reportId, openEnded)
                    + (if sessionId.Some? && sessionId.value != "" then [SessionEnded(sessionId.value, Completed)] else [])
    {
      SaveOpenEndedResponses(reportId);
      if sessionId.Some? && sessionId.value != "" {
        log := log + [SessionEnded(sessionId.value, Completed)];
      }
    }

    /** "確認提交回報": the responses are logged (again), the logger session is closed as
        completed, today's report is filed, the streak and total go up by one, the
        streak-14 and describer achievements unlock when earned, and the points are added. */
    method SubmitReport(today: string, reportId: string) returns (points: int)
      requires Valid() && currentIndex == |Symptoms| + 1
      modifies this`log, this`reportHistory, this`todayReported, this`compliance, this`achievements
      ensures Valid()
      ensures points == ReportPoints(|descriptions|, |openEnded|)
      ensures compliance == old(compliance).(currentStreak := old(compliance).currentStreak + 1,
                                             totalCompleted := old(compliance).totalCompleted + 1,
                                             points := old(compliance).points + points)
      ensures todayReported
      ensures reportHistory == old(reportHistory)[today := ReportRecord(scores, descriptions, |openEnded|, sessionId)]
      ensures log == old(log) + OpenEndedEvents(reportId, openEnded)
                    + (if sessionId.Some? && sessionId.value != "" then [SessionEnded(sessionId.value, Completed)] else [])
      ensures achievements == AfterUnlocks(old(achievements), compliance.currentStreak, |descriptions| > 0 || |openEnded| > 0, today)
    {
      CloseLoggedReport(reportId);
      points := RecordSubmission(today);
    }

    /** The app side of a submission: the report is filed, the streak and total counted,
        the earned achievements unlocked and the points awarded. */
    method RecordSubmission(today: string) returns (points: int)
      modifies this`reportHistory, this`todayReported, this`compliance, this`achievements
      ensures points == ReportPoints(|descriptions|, |openEnded|)
      ensures compliance == old(compliance).(currentStreak := old(compliance).currentStreak + 1,
                                             totalCompleted := old(compliance).totalCompleted + 1,
                                             points := old(compliance).points + points)
      ensures todayReported
      ensures reportHistory == old(reportHistory)[today := ReportRecord(scores, descriptions, |openEnded|, sessionId)]
      ensures achievements == AfterUnlocks(old(achievements), compliance.currentStreak, |descriptions| > 0 || |openEnded| > 0, today)
    {
      FileReport(today);
      var streak := CountCompletion();
      UnlockEarned(streak, |descriptions| > 0 || |openEnded| > 0, today);
      points := AwardPoints();
    }

    /** Today's entry of the report history, and the reported-today flag. */
    method FileReport(today: string)
      modifies this`reportHistory, this`todayReported
      ensures todayReported
      ensures reportHistory == old(reportHistory)[today := ReportRecord(scores, descriptions, |openEnded|, sessionId)]
    {
      reportHistory := reportHistory[today := ReportRecord(scores, descriptions, |openEnded|, sessionId)];
      todayReported := true;
    }

    /** The streak and the total of completed reports go up by one; the new streak is returned. */
    method CountCompletion() returns (streak: int)
      modifies this`compliance
      ensures compliance == old(compliance).(currentStreak := old(compliance).currentStreak + 1,
                                             totalCompleted := old(compliance).totalCompleted + 1)
      ensures streak == compliance.currentStreak
    {
      compliance := compliance.(currentStreak := compliance.currentStreak + 1,
                                totalCompleted := compliance.totalCompleted + 1);
      streak := compliance.currentStreak;
    }

    /** The unlock passes a submission runs. */
    method UnlockEarned(streak: int, described: bool, today: string)
      modifies this`achievements
      ensures achievements == AfterUnlocks(old(achievements), streak, described, today)
    {
      if streak >= 14 {
        UnlockAchievement("streak_14", today);
      }
      if described {
        UnlockAchievement("first_description", today);
      }
    }

    /** The report's points are computed and added to the total. */
    method AwardPoints() returns (points: int)
      modifies this`compliance
      ensures points == ReportPoints(|descriptions|, |openEnded|)
      ensures compliance == old(compliance).(points := old(compliance).points + points)
    {
      points := ReportPoints(|descriptions|, |openEnded|);
      compliance := compliance.(points := compliance.points + points);
    }

    /** One run of the chat page with at most one widget used: the back button leaves,
        closing the logger session as abandoned; otherwise an empty chat gets its
        greeting and the current step takes the event. */
    method Render(e: ChatEvent, greeting: Option<Template>, symptomReply: Option<Template>,
                  questions: seq<OpenQuestion>, reportId: string, today: string)
      requires Valid() && onChatPage
      modifies this`currentIndex, this`scores, this`descriptions, this`openEnded, this`messages, this`log,
               this`reportHistory, this`todayReported, this`compliance, this`achievements, this`onChatPage
      ensures Valid()
      ensures sessionId == old(sessionId)
      ensures e.BackHome? ==>
        && !onChatPage
        && ChatNow() == old(ChatNow()).(log := old(log) + (if sessionId.Some? && sessionId.value != ""
                                                          then [SessionEnded(sessionId.value, Abandoned)] else []))
      ensures !e.BackHome? ==>
        onChatPage && ChatNow() == Step(Opened(old(ChatNow()), greeting), sessionId, e, symptomReply, questions, reportId, today)
      ensures old(log) <= log
      ensures old(currentIndex) <= currentIndex <= old(currentIndex) + 1
      ensures old(scores).Keys <= scores.Keys
      ensures old(openEnded) <= openEnded
    {
      if e.BackHome? {
        LeaveChat();
      } else {
        RunOnlyAdds(ChatNow(), greeting, sessionId, e, symptomReply, questions, reportId, today);
        RenderChat(e, greeting, symptomReply, questions, reportId, today);
      }
    }

    /** The chat itself: an empty chat gets its greeting, then the current step takes the event. */
    method RenderChat(e: ChatEvent, greeting: Option<Template>, symptomReply: Option<Template>,
                      questions: seq<OpenQuestion>, reportId: string, today: string)
      requires Valid()
      modifies this`currentIndex, this`scores, this`descriptions, this`openEnded, this`messages, this`log,
               this`reportHistory, this`todayReported, this`compliance, this`achievements
      ensures Valid()
      ensures ChatNow() == Step(Opened(old(ChatNow()), greeting), sessionId, e, symptomReply, questions, reportId, today)
    {
      OpenChat(greeting);
      RenderStep(e, symptomReply, questions, reportId, today);
    }

    /** An empty chat gets its greeting; a chat with messages is left as it is. */
    method OpenChat(greeting: Option<Template>)
      requires Valid()
      modifies this`messages, this`log
      ensures Valid()
      ensures ChatNow() == Opened(old(ChatNow()), greeting)
    {
      if messages == [] {
        ShowWelcome(greeting);
      }
    }

    /** The current step takes the event. */
    method RenderStep(e: ChatEvent, symptomReply: Option<Template>, questions: seq<OpenQuestion>, reportId: string, today: string)
      requires Valid()
      modifies this`currentIndex, this`scores, this`descriptions, this`openEnded, this`messages, this`log,
               this`reportHistory, this`todayReported, this`compliance, this`achievements
      ensures Valid()
      ensures ChatNow() == Step(old(ChatNow()), sessionId, e, symptomReply, questions, reportId, today)
    {
      if currentIndex <= |Symptoms| {
        RenderWalkStep(e, symptomReply, questions, reportId);
      } else if e.ConfirmSubmit? {
        var _ := SubmitReport(today, reportId);
      }
    }

    /** Before the submit step: a score step or the open-ended step takes the event. */
    method RenderWalkStep(e: ChatEvent, symptomReply: Option<Template>, questions: seq<OpenQuestion>, reportId: string)
      requires Valid() && currentIndex <= |Symptoms|
      modifies this`currentIndex, this`scores, this`descriptions, this`openEnded, this`messages, this`log
      ensures Valid()
      ensures ChatNow() == if old(currentIndex) < |Symptoms| then ScoreStep(old(ChatNow()), e, symptomReply)
                           else OpenEndedStep(old(ChatNow()), e, questions, reportId)
    {
      if currentIndex < |Symptoms| {
        RenderScoreStep(e, symptomReply);
      } else {
        RenderOpenEndedStep(e, questions, reportId);
      }
    }

    /** A score step takes a score button in 0..10 or non-empty typed text; anything else changes nothing. */
    method RenderScoreStep(e: ChatEvent, symptomReply: Option<Template>)
      requires Valid() && currentIndex < |Symptoms|
      modifies this`currentIndex, this`scores, this`descriptions, this`messages, this`log
      ensures Valid()
      ensures ChatNow() == ScoreStep(old(ChatNow()), e, symptomReply)
    {
      if e.ScorePressed? && 0 <= e.score <= 10 {
        HandleScoreSelection(e.score, ButtonPress, symptomReply);
      } else if e.TextEntered? && e.text != "" {
        HandleTextInput(e.text, symptomReply);
      }
    }

    /** The open-ended step records the first two answers, then a skip or a finish moves to the submit step. */
    method RenderOpenEndedStep(e: ChatEvent, questions: seq<OpenQuestion>, reportId: string)
      requires Valid() && currentIndex == |Symptoms|
      modifies this`currentIndex, this`openEnded, this`log
      ensures Valid()
      ensures ChatNow() == OpenEndedStep(old(ChatNow()), e, questions, reportId)
    {
      var typed := if e.OpenEndedRun? then e.typed else [];
      AnswersAfterKeeps(openEnded, questions, typed, if |questions| < 2 then |questions| else 2);
      RecordOpenEndedAnswers(questions, typed);
      if e.OpenEndedRun? && e.choice.SkipAndSubmit? {
        SkipOpenEnded();
      } else if e.OpenEndedRun? && e.choice.FinishAndSubmit? {
        FinishOpenEnded(reportId);
      }
    }
  }

  // ---------------------------------------------------------------------
  // Worked scenarios
  // ---------------------------------------------------------------------

  /** Seven button presses of 0, a skip and a submit: the walk ends at step N+1,
      every symptom is scored 0, and the report earns the base 10 points. */
  method AllZeroReport() returns (points: int, finalIndex: int, recorded: map<string, int>)
    ensures finalIndex == |Symptoms| + 1
    ensures points == 10
    ensures recorded.Keys == SymptomIds
    ensures forall id :: id in recorded ==> recorded[id] == 0
  {
    var s := new ReportSession();
    s.StartChatReport("session");
    while s.currentIndex < |Symptoms|
      invariant s.Valid() && s.currentIndex <= |Symptoms|
      invariant s.descriptions == map[] && s.openEnded == []
      invariant forall id :: id in s.scores ==> s.scores[id] == 0
      decreases |Symptoms| - s.currentIndex
    {
      s.HandleScoreSelection(0, ButtonPress, None);
    }
    s.SkipOpenEnded();
    points := s.SubmitReport("2024-12-23", "report");
    finalIndex := s.currentIndex;
    recorded := s.scores;
  }

  /** "9分很痛" typed at the pain step scores pain 9 and moves on; the residue "很痛" has
      only two characters, so no description is stored. */
  method TypedNineAtPain() returns (painScore: int, hasDescription: bool, nextIndex: int)
    ensures painScore == 9 && !hasDescription && nextIndex == 1
  {
    var s := new ReportSession();
    s.StartChatReport("session");
    NineWithShortResidueScores();
    ShortResidueIsDropped();
    s.HandleTextInput("9分很痛", None);
    painScore := s.scores["pain"];
    hasDescription := "pain" in s.descriptions;
    nextIndex := s.currentIndex;
  }
}
