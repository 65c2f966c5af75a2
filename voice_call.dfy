/** The AI voice-call demo's step machine (voice_call_demo.py): the scripted
    call steps, the session state the page keeps between reruns, and the
    handlers of the call's buttons. */
module VoiceCall {
  import opened Text
  import opened Triage
  import ScoreParser
  import ChatReport

  /** Which interaction a step renders; voice_call_demo.py tells them apart by flags on the step. */
  datatype StepKind =
    | Incoming
    | QuickReplies(replies: seq<string>)
    | ScoreQuestion(symptom: Option<string>)
    | MultiChoice
    | SafetyCheck
    | OpenEnded
    | Closing

  datatype CallStep = CallStep(id: string, kind: StepKind)

  /** The scripted call, in order. */
  const CallSteps: seq<CallStep> := [
    CallStep("incoming_call", Incoming),
    CallStep("greeting", QuickReplies(["好，可以", "方便，請說", "沒問題"])),
    CallStep("overall", ScoreQuestion(Some("overall"))),
    CallStep("pain", ScoreQuestion(Some("pain"))),
    CallStep("dyspnea", ScoreQuestion(Some("dyspnea"))),
    CallStep("fatigue", ScoreQuestion(Some("fatigue"))),
    CallStep("cough", ScoreQuestion(Some("cough"))),
    CallStep("sleep_appetite", MultiChoice),
    CallStep("safety_check", SafetyCheck),
    CallStep("additional", OpenEnded),
    CallStep("closing", Closing)
  ]

  /** Only the closing step is the last one. */
  lemma OnlyClosingIsLast(k: int)
    requires 0 <= k < |CallSteps| && !CallSteps[k].kind.Closing?
    ensures k + 1 < |CallSteps|
  {
  }

  /** The key a score step records under: the step's symptom, or else its id. */
  function ScoreKey(s: CallStep): (key: string)
    requires s.kind.ScoreQuestion?
    ensures s.kind.symptom.Some? ==> key == s.kind.symptom.value
    ensures s.kind.symptom.None? ==> key == s.id
  {
    match s.kind.symptom
    case Some(sym) => sym
    case None => s.id
  }

  /** What the assistant says at a step: the scripted line, which at the closing step
      carries the symptom summary and the follow-up action of the current alert level. */
  datatype Prompt = Scripted | Recap(summary: string, followUp: string)

  datatype VoiceMessage =
    | AiLine(stepId: string, prompt: Prompt)
    | PatientLine(stepId: string, text: string)

  /** How many assistant lines the transcript holds for step `id`. */
  function AiLineCount(msgs: seq<VoiceMessage>, id: string): nat
  {
    if msgs == [] then 0
    else
      var last := msgs[|msgs| - 1];
      AiLineCount(msgs[..|msgs| - 1], id) + (if last.AiLine? && last.stepId == id then 1 else 0)
  }

  /** Appending a message adds one to the count of its own step if it is an assistant line, and nothing otherwise. */
  lemma AiLineCountAppend(msgs: seq<VoiceMessage>, m: VoiceMessage, id: string)
    ensures AiLineCount(msgs + [m], id) == AiLineCount(msgs, id) + (if m.AiLine? && m.stepId == id then 1 else 0)
  {
    assert (msgs + [m])[..|msgs|] == msgs;
  }

  lemma AppendPatientLine(msgs: seq<VoiceMessage>, m: VoiceMessage)
    requires m.PatientLine?
    ensures forall id :: AiLineCount(msgs + [m], id) == AiLineCount(msgs, id)
  {
    forall id ensures AiLineCount(msgs + [m], id) == AiLineCount(msgs, id) {
      AiLineCountAppend(msgs, m, id);
    }
  }

  /** The patient's spoken answer to a score question: "{i} 分" and a word for the band
      (up to 2 "還好", up to 5 "有一點", else "比較嚴重"). */
  function ScoreAnswerText(i: nat): (r: string)
    ensures ScoreParser.ScoreText(i) <= r && |r| > |ScoreParser.ScoreText(i)|
  {
    NatToString(i) + " 分" + (if i <= 2 then "，還好" else if i <= 5 then "，有一點" else "，比較嚴重")
  }

  /** The spoken score answer carries its score: parsing it back yields the score picked. */
  lemma ScoreAnswerParsesBack(i: nat)
    requires i <= 10
    ensures ScoreParser.ParseScore(ScoreAnswerText(i)) == Some(i)
  {
    var tail := " 分" + (if i <= 2 then "，還好" else if i <= 5 then "，有一點" else "，比較嚴重");
    assert ScoreAnswerText(i) == NatToString(i) + tail;
    ScoreParser.LeadingScoreParses(i, tail);
  }

  /** The patient's line once sleep and appetite are both picked: sleep first, then appetite. */
  function MultiChoiceText(sleep: Answer, appetite: Answer): (r: string)
    ensures "睡眠" + AnswerText(sleep) <= r
    ensures var tail := "，食慾" + AnswerText(appetite); |tail| <= |r| && r[|r| - |tail|..] == tail
  {
    "睡眠" + AnswerText(sleep) + "，食慾" + AnswerText(appetite)
  }

  /** The patient's line at the safety check: it begins with "有點發燒" exactly when a fever
      was reported, and ends with "傷口有點紅腫" exactly when a wound problem was. */
  function SafetyText(fever: bool, woundIssue: bool): (r: string)
    ensures fever <==> "有點發燒" <= r
    ensures woundIssue <==> (|r| >= 6 && r[|r| - 6..] == "傷口有點紅腫")
  {
    var r := (if fever then "有點發燒" else "沒有發燒") + "，" + (if woundIssue then "傷口有點紅腫" else "傷口看起來正常");
    assert r[0] == (if fever then '有' else '沒');
    assert r[|r| - 3] == (if woundIssue then '點' else '來');
    r
  }

  /** The words recorded when the patient submits the open question. */
  function OpenAnswerText(response: string): (r: string)
    ensures r != ""
    ensures response != "" ==> r == response
  {
    if response != "" then response else "沒有其他問題"
  }

  /** One button press (or none) on the demo page. */
  datatype CallEvent =
    | NoAction
    | Answer
    | Decline
    | ScorePicked(i: int)
    | SleepPicked(sleepOption: string)
    | AppetitePicked(appetiteOption: string)
    | SafetyConfirmed(fever: bool, woundIssue: bool)
    | NoFurtherQuestions
    | QuestionSubmitted(response: string)
    | QuickReplyPicked(k: int)
    | FinishCall
    | EndCall
    | ReturnHome

  /** The option buttons of the sleep-and-appetite step. */
  const SleepOptions: seq<string> := ["睡得好", "還可以", "睡不好"]
  const AppetiteOptions: seq<string> := ["吃得下", "普通", "沒胃口"]

  /** Whether a widget of a step of kind `kind` responds to `e`: the score buttons 0..10,
      the three sleep and three appetite options, the safety confirmation, the two open-question
      buttons, the closing hang-up and the step's quick replies. */
  predicate Takes(kind: StepKind, e: CallEvent) {
    match kind
    case ScoreQuestion(_) => e.ScorePicked? && 0 <= e.i <= 10
    case MultiChoice => (e.SleepPicked? && e.sleepOption in SleepOptions) || (e.AppetitePicked? && e.appetiteOption in AppetiteOptions)
    case SafetyCheck => e.SafetyConfirmed?
    case OpenEnded => e.NoFurtherQuestions? || e.QuestionSubmitted?
    case Closing => e.FinishCall?
    case QuickReplies(replies) => e.QuickReplyPicked? && 0 <= e.k < |replies|
    case Incoming => false
  }

  class VoiceCallSession {
    var step: int
    var messages: seq<VoiceMessage>
    var scores: ScoreTable
    var started: bool
    var ended: bool
    var safetyFlags: SafetyFlags

    ghost predicate Valid()
      reads this
    {
      && 0 <= step < |CallSteps|
      && (!started ==> step == 0)
      && (ended ==> started)
      && (forall k :: k in scores && scores[k].Choice? ==> k == "sleep" || k == "appetite")
      && (forall id :: AiLineCount(messages, id) <= 1)
    }

    lemma ValidKeysNumeric()
      requires Valid()
      ensures ClassifierKeysNumeric(scores)
    {
    }

    /** The state `init_voice_call_state` puts in place. */
    constructor ()
      ensures Valid()
      ensures step == 0 && messages == [] && scores == map[]
      ensures !started && !ended && safetyFlags == SafetyFlags(false, false)
    {
      step := 0;
      messages := [];
      scores := map[];
      started := false;
      ended := false;
      safetyFlags := SafetyFlags(false, false);
    }

    /** "接聽": the call starts at the greeting. */
    method AnswerCall()
      requires Valid() && !started
      modifies this
      ensures Valid()
      ensures started && step == 1
      ensures messages == old(messages) && scores == old(scores) && ended == old(ended)
      ensures safetyFlags == old(safetyFlags)
    {
      started := true;
      step := 1;
    }

    /** The assistant line of the current step; the closing line recaps the call. */
    function PromptFor(s: CallStep): (p: Prompt)
      reads this
      requires Valid()
      ensures p.Recap? <==> s.kind.Closing?
      ensures p.Recap? ==> p.summary == GenerateSummary(scores)
      ensures p.Recap? ==> p.followUp == FollowUpAction(LevelName(CalculateAlertLevel(scores, safetyFlags).level))
    {
      if s.kind.Closing? then
        Recap(GenerateSummary(scores), FollowUpAction(LevelName(CalculateAlertLevel(scores, safetyFlags).level)))
      else Scripted
    }

    /** Appends the current step's assistant line unless the transcript already holds one for that step. */
    method ShowStepPrompt() returns (appended: bool)
      requires Valid() && started
      modifies this`messages
      ensures Valid()
      ensures appended == (old(AiLineCount(messages, CallSteps[step].id)) == 0)
      ensures messages == if appended then old(messages) + [AiLine(CallSteps[step].id, PromptFor(CallSteps[step]))] else old(messages)
      ensures AiLineCount(messages, CallSteps[step].id) == 1
    {
      var s := CallSteps[step];
      appended := AiLineCount(messages, s.id) == 0;
      if appended {
        var line := AiLine(s.id, PromptFor(s));
        forall id ensures AiLineCount(messages + [line], id) == AiLineCount(messages, id) + (if id == s.id then 1 else 0) {
          AiLineCountAppend(messages, line, id);
        }
        messages := messages + [line];
      }
    }

    /** Adds the patient's words at the current step and moves to the next step. */
    method SayAndAdvance(text: string)
      requires Valid() && started && !CallSteps[step].kind.Closing?
      modifies this`messages, this`step
      ensures Valid()
      ensures messages == old(messages) + [PatientLine(CallSteps[old(step)].id, text)]
      ensures step == old(step) + 1
    {
      var line := PatientLine(CallSteps[step].id, text);
      AppendPatientLine(messages, line);
      messages := messages + [line];
      OnlyClosingIsLast(step);
      step := step + 1;
    }

    /** A score button 0..10 at a score question. */
    method RecordScore(i: int)
      requires Valid() && started && CallSteps[step].kind.ScoreQuestion?
      requires 0 <= i <= 10
      modifies this
      ensures Valid()
      ensures scores == old(scores)[ScoreKey(CallSteps[old(step)]) := Score(i)]
      ensures messages == old(messages) + [PatientLine(CallSteps[old(step)].id, ScoreAnswerText(i))]
      ensures step == old(step) + 1
      ensures started == old(started) && ended == old(ended)
      ensures safetyFlags == old(safetyFlags)
    {
      var key := ScoreKey(CallSteps[step]);
      scores := scores[key := Score(i)];
      SayAndAdvance(ScoreAnswerText(i));
    }

    /** After a sleep or appetite pick: once both are recorded, says them and advances. */
    method CheckAndAdvanceMultiChoice()
      requires Valid() && started && CallSteps[step].kind.MultiChoice?
      modifies this`messages, this`step
      ensures Valid()
      ensures "sleep" in scores && "appetite" in scores ==>
        && messages == old(messages) + [PatientLine(CallSteps[old(step)].id, MultiChoiceText(scores["sleep"], scores["appetite"]))]
        && step == old(step) + 1
      ensures !("sleep" in scores && "appetite" in scores) ==> messages == old(messages) && step == old(step)
    {
      if "sleep" in scores && "appetite" in scores {
        SayAndAdvance(MultiChoiceText(scores["sleep"], scores["appetite"]));
      }
    }

    /** A sleep option button. */
    method PickSleep(option: string)
      requires Valid() && started && CallSteps[step].kind.MultiChoice?
      modifies this
      ensures Valid()
      ensures scores == old(scores)["sleep" := Choice(option)]
      ensures "appetite" in old(scores) ==>
        && messages == old(messages) + [PatientLine(CallSteps[old(step)].id, MultiChoiceText(Choice(option), old(scores)["appetite"]))]
        && step == old(step) + 1
      ensures "appetite" !in old(scores) ==> messages == old(messages) && step == old(step)
      ensures started == old(started) && ended == old(ended)
      ensures safetyFlags == old(safetyFlags)
    {
      scores := scores["sleep" := Choice(option)];
      CheckAndAdvanceMultiChoice();
    }

    /** An appetite option button. */
    method PickAppetite(option: string)
      requires Valid() && started && CallSteps[step].kind.MultiChoice?
      modifies this
      ensures Valid()
      ensures scores == old(scores)["appetite" := Choice(option)]
      ensures "sleep" in old(scores) ==>
        && messages == old(messages) + [PatientLine(CallSteps[old(step)].id, MultiChoiceText(old(scores)["sleep"], Choice(option)))]
        && step == old(step) + 1
      ensures "sleep" !in old(scores) ==> messages == old(messages) && step == old(step)
      ensures started == old(started) && ended == old(ended)
      ensures safetyFlags == old(safetyFlags)
    {
      scores := scores["appetite" := Choice(option)];
      CheckAndAdvanceMultiChoice();
    }

    /** "確認" at the safety check: both flags are set from the two answers. */
    method ConfirmSafety(fever: bool, woundIssue: bool)
      requires Valid() && started && CallSteps[step].kind.SafetyCheck?
      modifies this
      ensures Valid()
      ensures safetyFlags == SafetyFlags(fever, woundIssue)
      ensures messages == old(messages) + [PatientLine(CallSteps[old(step)].id, SafetyText(fever, woundIssue))]
      ensures step == old(step) + 1
      ensures scores == old(scores) && started == old(started) && ended == old(ended)
    {
      safetyFlags := SafetyFlags(fever, woundIssue);
      SayAndAdvance(SafetyText(fever, woundIssue));
    }

    /** "沒有其他問題" at the open question. */
    method DeclineOpenQuestion()
      requires Valid() && started && CallSteps[step].kind.OpenEnded?
      modifies this
      ensures Valid()
      ensures messages == old(messages) + [PatientLine(CallSteps[old(step)].id, "目前沒有其他問題，謝謝")]
      ensures step == old(step) + 1
      ensures scores == old(scores) && started == old(started) && ended == old(ended)
      ensures safetyFlags == old(safetyFlags)
    {
      SayAndAdvance("目前沒有其他問題，謝謝");
    }

    /** "送出" at the open question, with whatever was typed. */
    method SubmitOpenQuestion(response: string)
      requires Valid() && started && CallSteps[step].kind.OpenEnded?
      modifies this
      ensures Valid()
      ensures messages == old(messages) + [PatientLine(CallSteps[old(step)].id, OpenAnswerText(response))]
      ensures step == old(step) + 1
      ensures scores == old(scores) && started == old(started) && ended == old(ended)
      ensures safetyFlags == old(safetyFlags)
    {
      SayAndAdvance(OpenAnswerText(response));
    }

    /** One of the step's quick-reply buttons. */
    method PickQuickReply(k: int)
      requires Valid() && started && CallSteps[step].kind.QuickReplies?
      requires 0 <= k < |CallSteps[step].kind.replies|
      modifies this
      ensures Valid()
      ensures messages == old(messages) + [PatientLine(CallSteps[old(step)].id, CallSteps[old(step)].kind.replies[k])]
      ensures step == old(step) + 1
      ensures scores == old(scores) && started == old(started) && ended == old(ended)
      ensures safetyFlags == old(safetyFlags)
    {
      SayAndAdvance(CallSteps[step].kind.replies[k]);
    }

    /** "結束通話": the call ends and the report is shown. */
    method Hangup()
      requires Valid() && started
      modifies this`ended
      ensures Valid() && ended
    {
      ended := true;
    }

    /** "返回首頁" on the call report: the call state is reset and the day counts as reported
        in the same session-wide flag the chat report sets, so the home page no longer
        offers a report for today. */
    method ReturnFromReport(home: ChatReport.ReportSession)
      requires Valid() && ended
      modifies this, home`todayReported
      ensures Valid()
      ensures step == 0 && messages == [] && scores == map[]
      ensures !started && !ended && safetyFlags == SafetyFlags(false, false)
      ensures home.todayReported
    {
      step := 0;
      messages := [];
      scores := map[];
      started := false;
      ended := false;
      safetyFlags := SafetyFlags(false, false);
      home.todayReported := true;
    }

    /** What the widget that took event `e` did at step `s`, the step the call was at:
        its handler's whole effect on the call state. */
    twostate predicate WidgetOutcome(s: CallStep, e: CallEvent)
      reads this
    {
      && 0 <= old(step) < |CallSteps| && s == CallSteps[old(step)]
      && started
      && match e
         case ScorePicked(i) =>
           && s.kind.ScoreQuestion? && 0 <= i <= 10
           && scores == old(scores)[ScoreKey(s) := Score(i)]
           && SaidAndAdvanced(s, ScoreAnswerText(i))
           && safetyFlags == old(safetyFlags) && !ended
         case SleepPicked(option) =>
           && scores == old(scores)["sleep" := Choice(option)]
           && ("appetite" in old(scores) ==> SaidAndAdvanced(s, MultiChoiceText(Choice(option), old(scores)["appetite"])))
           && ("appetite" !in old(scores) ==> messages == old(messages) && step == old(step))
           && safetyFlags == old(safetyFlags) && !ended
         case AppetitePicked(option) =>
           && scores == old(scores)["appetite" := Choice(option)]
           && ("sleep" in old(scores) ==> SaidAndAdvanced(s, MultiChoiceText(old(scores)["sleep"], Choice(option))))
           && ("sleep" !in old(scores) ==> messages == old(messages) && step == old(step))
           && safetyFlags == old(safetyFlags) && !ended
         case SafetyConfirmed(fever, woundIssue) =>
           && safetyFlags == SafetyFlags(fever, woundIssue)
           && SaidAndAdvanced(s, SafetyText(fever, woundIssue))
           && scores == old(scores) && !ended
         case NoFurtherQuestions =>
           && SaidAndAdvanced(s, "目前沒有其他問題，謝謝")
           && scores == old(scores) && safetyFlags == old(safetyFlags) && !ended
         case QuestionSubmitted(response) =>
           && SaidAndAdvanced(s, OpenAnswerText(response))
           && scores == old(scores) && safetyFlags == old(safetyFlags) && !ended
         case QuickReplyPicked(k) =>
           && s.kind.QuickReplies? && 0 <= k < |s.kind.replies|
           && SaidAndAdvanced(s, s.kind.replies[k])
           && scores == old(scores) && safetyFlags == old(safetyFlags) && !ended
         case FinishCall =>
           && ended
           && messages == old(messages) && step == old(step) && scores == old(scores) && safetyFlags == old(safetyFlags)
         case _ => false
    }

    /** The patient's `text` was added for step `s` and the call moved one step on. */
    twostate predicate SaidAndAdvanced(s: CallStep, text: string)
      reads this
    {
      messages == old(messages) + [PatientLine(s.id, text)] && step == old(step) + 1
    }

    /** The step's own widget takes the event: the handler its kind and the event select. */
    method HandleWidget(e: CallEvent)
      requires Valid() && started && !ended && Takes(CallSteps[step].kind, e)
      modifies this
      ensures Valid()
      ensures WidgetOutcome(old(CallSteps[step]), e)
    {
      var s := CallSteps[step];
      match e {
        case ScorePicked(i) => RecordScore(i);
        case SleepPicked(option) => PickSleep(option);
        case AppetitePicked(option) => PickAppetite(option);
        case SafetyConfirmed(fever, woundIssue) => ConfirmSafety(fever, woundIssue);
        case NoFurtherQuestions => DeclineOpenQuestion();
        case QuestionSubmitted(response) => SubmitOpenQuestion(response);
        case QuickReplyPicked(k) => PickQuickReply(k);
        case FinishCall => Hangup();
      }
    }

    /** What one run of the active call did with event `e`. A step visited for the first
        time gets its assistant line and nothing else changes. Otherwise a widget of the
        step that takes `e` has its handler's effect; failing that, the hang-up button
        ends the call; and any other event changes nothing. */
    twostate predicate ActiveCallOutcome(e: CallEvent)
      reads this
    {
      && 0 <= old(step) < |CallSteps| && Valid()
      && var s := CallSteps[old(step)];
         var firstVisit := old(AiLineCount(messages, s.id)) == 0;
         && (firstVisit ==>
               && messages == old(messages) + [AiLine(s.id, PromptFor(s))]
               && step == old(step) && scores == old(scores) && safetyFlags == old(safetyFlags)
               && started && !ended)
         && (!firstVisit && Takes(s.kind, e) ==> WidgetOutcome(s, e))
         && (!firstVisit && !Takes(s.kind, e) && e.EndCall? ==>
               && ended && started
               && messages == old(messages) && step == old(step) && scores == old(scores) && safetyFlags == old(safetyFlags))
         && (!firstVisit && !Takes(s.kind, e) && !e.EndCall? ==> unchanged(this))
    }

    /** `render_active_call`: the step's assistant line is added first, once, and that run
        ends there; otherwise the step's widgets take the press, and the hang-up button
        below them takes it when they do not. */
    method RenderActiveCall(e: CallEvent)
      requires Valid() && started && !ended
      modifies this
      ensures Valid()
      ensures ActiveCallOutcome(e)
    {
      var appended := ShowStepPrompt();
      if appended {
        return;
      }
      if Takes(CallSteps[step].kind, e) {
        HandleWidget(e);
      } else if e.EndCall? {
        Hangup();
      }
    }

    /** One run of the demo page with at most one button pressed: the call report once
        the call has ended, the incoming call before it is answered, the active call
        otherwise. */
    method Render(e: CallEvent, home: ChatReport.ReportSession)
      requires Valid()
      modifies this, home`todayReported
      ensures Valid()
      ensures !old(ended) ==> home.todayReported == old(home.todayReported)
      ensures old(ended) && e.ReturnHome? ==>
        && step == 0 && messages == [] && scores == map[] && !started && !ended
        && safetyFlags == SafetyFlags(false, false) && home.todayReported
      ensures old(ended) && !e.ReturnHome? ==> unchanged(this) && home.todayReported == old(home.todayReported)
      ensures !old(ended) && !old(started) && e.Answer? ==>
        && started && step == 1 && !ended
        && messages == old(messages) && scores == old(scores) && safetyFlags == old(safetyFlags)
      ensures !old(ended) && !old(started) && !e.Answer? ==> unchanged(this)
      ensures !old(ended) && old(started) ==> ActiveCallOutcome(e)
    {
      if ended {
        if e.ReturnHome? {
          ReturnFromReport(home);
        }
        return;
      }
      if !started {
        if e.Answer? {
          AnswerCall();
        }
        return;
      }
      RenderActiveCall(e);
    }
  }
}
