/** The voice call's rule-based triage: alert level, follow-up action and the
    spoken symptom summary (`calculate_alert_level`, `get_follow_up_action`
    and `generate_summary` in voice_call_demo.py). */
module Triage {
  import opened Text

  /** A value of the call's score table: a 0–10 score, or the option picked for sleep or appetite. */
  datatype Answer = Score(n: int) | Choice(picked: string)

  type ScoreTable = map<string, Answer>

  datatype SafetyFlags = SafetyFlags(fever: bool, woundIssue: bool)

  datatype AlertLevel = Green | Yellow | Red

  datatype Assessment = Assessment(level: AlertLevel, text: string)

  /** The table holds a number, not an option label, under `key` when it holds anything. */
  predicate NumericAt(scores: ScoreTable, key: string) {
    key in scores ==> scores[key].Score?
  }

  /** The keys the classifier compares against thresholds hold numbers. */
  predicate ClassifierKeysNumeric(scores: ScoreTable) {
    NumericAt(scores, "pain") && NumericAt(scores, "dyspnea") && NumericAt(scores, "overall")
  }

  /** `scores.get(key, 0)`: a missing key counts as 0. */
  function ScoreOrZero(scores: ScoreTable, key: string): int
    requires NumericAt(scores, key)
  {
    if key in scores then scores[key].n else 0
  }

  function AlertLabel(level: AlertLevel): string {
    match level
    case Red => "🔴 紅燈警示"
    case Yellow => "🟡 黃燈提醒"
    case Green => "🟢 狀況良好"
  }

  /** Ordered rules, first match wins: a safety flag, then pain >= 7, dyspnea >= 6,
      overall >= 8 give red; then pain >= 4, dyspnea >= 4, overall >= 5 give yellow;
      anything else is green. The label always names the level. */
  function CalculateAlertLevel(scores: ScoreTable, flags: SafetyFlags): (a: Assessment)
    requires ClassifierKeysNumeric(scores)
    ensures a.text == AlertLabel(a.level)
    ensures flags.fever || flags.woundIssue ==> a.level == Red
  {
    if flags.fever || flags.woundIssue then Assessment(Red, "🔴 紅燈警示")
    else if ScoreOrZero(scores, "pain") >= 7 then Assessment(Red, "🔴 紅燈警示")
    else if ScoreOrZero(scores, "dyspnea") >= 6 then Assessment(Red, "🔴 紅燈警示")
    else if ScoreOrZero(scores, "overall") >= 8 then Assessment(Red, "🔴 紅燈警示")
    else if ScoreOrZero(scores, "pain") >= 4 then Assessment(Yellow, "🟡 黃燈提醒")
    else if ScoreOrZero(scores, "dyspnea") >= 4 then Assessment(Yellow, "🟡 黃燈提醒")
    else if ScoreOrZero(scores, "overall") >= 5 then Assessment(Yellow, "🟡 黃燈提醒")
    else Assessment(Green, "🟢 狀況良好")
  }

  /** Order-free reading of the red rules. */
  predicate RedCondition(scores: ScoreTable, flags: SafetyFlags)
    requires ClassifierKeysNumeric(scores)
  {
    flags.fever || flags.woundIssue
    || ScoreOrZero(scores, "pain") >= 7 || ScoreOrZero(scores, "dyspnea") >= 6 || ScoreOrZero(scores, "overall") >= 8
  }

  /** Order-free reading of the yellow rules. */
  predicate YellowCondition(scores: ScoreTable)
    requires ClassifierKeysNumeric(scores)
  {
    ScoreOrZero(scores, "pain") >= 4 || ScoreOrZero(scores, "dyspnea") >= 4 || ScoreOrZero(scores, "overall") >= 5
  }

  /** The ordered rules amount to: red iff some red condition holds; yellow iff no red
      but some yellow condition holds; green iff neither. */
  lemma AlertLevelCharacterization(scores: ScoreTable, flags: SafetyFlags)
    requires ClassifierKeysNumeric(scores)
    ensures CalculateAlertLevel(scores, flags).level == Red <==> RedCondition(scores, flags)
    ensures CalculateAlertLevel(scores, flags).level == Yellow <==> !RedCondition(scores, flags) && YellowCondition(scores)
    ensures CalculateAlertLevel(scores, flags).level == Green <==> !RedCondition(scores, flags) && !YellowCondition(scores)
  {
  }

  function Rank(level: AlertLevel): nat {
    match level
    case Green => 0
    case Yellow => 1
    case Red => 2
  }

  /** Raising pain, dyspnea or overall, or setting a safety flag, never lowers the level. */
  lemma AlertLevelMonotone(s1: ScoreTable, f1: SafetyFlags, s2: ScoreTable, f2: SafetyFlags)
    requires ClassifierKeysNumeric(s1) && ClassifierKeysNumeric(s2)
    requires ScoreOrZero(s1, "pain") <= ScoreOrZero(s2, "pain")
    requires ScoreOrZero(s1, "dyspnea") <= ScoreOrZero(s2, "dyspnea")
    requires ScoreOrZero(s1, "overall") <= ScoreOrZero(s2, "overall")
    requires (f1.fever ==> f2.fever) && (f1.woundIssue ==> f2.woundIssue)
    ensures Rank(CalculateAlertLevel(s1, f1).level) <= Rank(CalculateAlertLevel(s2, f2).level)
  {
    AlertLevelCharacterization(s1, f1);
    AlertLevelCharacterization(s2, f2);
  }

  /** Sample cases: an empty table is green, a fever overrides low scores,
      pain 8 is red and pain 5 is yellow. */
  lemma ClassifierExamples()
    ensures CalculateAlertLevel(map[], SafetyFlags(false, false)).level == Green
    ensures CalculateAlertLevel(map["pain" := Score(2), "dyspnea" := Score(2), "overall" := Score(2)], SafetyFlags(true, false)).level == Red
    ensures CalculateAlertLevel(map["pain" := Score(8)], SafetyFlags(false, false)).level == Red
    ensures CalculateAlertLevel(map["pain" := Score(5)], SafetyFlags(false, false)).level == Yellow
  {
  }

  // ---------------------------------------------------------------------
  // get_follow_up_action
  // ---------------------------------------------------------------------

  /** The level's name as voice_call_demo.py passes it around ("green", "yellow", "red"). */
  function LevelName(level: AlertLevel): string {
    match level
    case Green => "green"
    case Yellow => "yellow"
    case Red => "red"
  }

  const GreenAction := "您恢復得很好，繼續保持！明天同一時間我們再聊"
  const YellowAction := "我們會持續關注您的狀況，如有需要個管師會主動聯繫您"
  const RedAction := "個管師會在 30 分鐘內主動聯繫您，請保持電話暢通"

  /** The fixed follow-up text of a level name; any other name gets "". */
  function FollowUpAction(levelName: string): (r: string)
    ensures levelName !in {"green", "yellow", "red"} ==> r == ""
    ensures levelName in {"green", "yellow", "red"} ==> r != ""
  {
    if levelName == "green" then GreenAction
    else if levelName == "yellow" then YellowAction
    else if levelName == "red" then RedAction
    else ""
  }

  /** Every level has its own, non-empty follow-up text. */
  lemma FollowUpActionPerLevel(l1: AlertLevel, l2: AlertLevel)
    ensures FollowUpAction(LevelName(l1)) != ""
    ensures l1 != l2 ==> FollowUpAction(LevelName(l1)) != FollowUpAction(LevelName(l2))
  {
    assert GreenAction[0] != YellowAction[0] && GreenAction[0] != RedAction[0] && YellowAction[0] != RedAction[0];
  }

  // ---------------------------------------------------------------------
  // generate_summary
  // ---------------------------------------------------------------------

  /** The keys the summary reports, in the order it reports them. */
  const SummaryKeys: seq<string> := ["overall", "pain", "dyspnea", "fatigue", "cough"]

  function SummaryLabel(key: string): string {
    if key == "overall" then "整體"
    else if key == "pain" then "疼痛"
    else if key == "dyspnea" then "呼吸困難"
    else if key == "fatigue" then "疲勞"
    else if key == "cough" then "咳嗽"
    else key
  }

  datatype SummaryPart = SummaryPart(key: string, value: Answer)

  /** One part per key of `keys` present in the table, in the order of `keys`. */
  function PartsFor(keys: seq<string>, scores: ScoreTable): (parts: seq<SummaryPart>)
    ensures |parts| <= |keys|
  {
    if keys == [] then []
    else
      var rest := PartsFor(keys[1..], scores);
      if keys[0] in scores then [SummaryPart(keys[0], scores[keys[0]])] + rest else rest
  }

  /** The parts are exactly the keys of `keys` present in the table, each with its answer. */
  lemma {:induction false} PartsForContents(keys: seq<string>, scores: ScoreTable)
    ensures forall p :: p in PartsFor(keys, scores) ==> p.key in keys && p.key in scores && p.value == scores[p.key]
    ensures forall k :: k in keys && k in scores ==> SummaryPart(k, scores[k]) in PartsFor(keys, scores)
  {
    if keys != [] {
      PartsForContents(keys[1..], scores);
      assert forall k :: k in keys[1..] ==> k in keys;
      assert forall k :: k in keys && k != keys[0] ==> k in keys[1..];
    }
  }

  /** `x` occurs in `keys` strictly before `y`. */
  predicate Before(keys: seq<string>, x: string, y: string) {
    exists a, b :: 0 <= a < b < |keys| && keys[a] == x && keys[b] == y
  }

  lemma BeforeInTail(keys: seq<string>, x: string, y: string)
    requires keys != [] && Before(keys[1..], x, y)
    ensures Before(keys, x, y)
  {
    var a, b :| 0 <= a < b < |keys[1..]| && keys[1..][a] == x && keys[1..][b] == y;
    assert keys[a + 1] == x && keys[b + 1] == y;
  }

  lemma BeforeFromHead(keys: seq<string>, y: string)
    requires keys != [] && y in keys[1..]
    ensures Before(keys, keys[0], y)
  {
    var b :| 0 <= b < |keys[1..]| && keys[1..][b] == y;
    assert keys[b + 1] == y;
  }

  /** The parts follow the order of `keys`: each later part's key sits further on in `keys`. */
  lemma {:induction false} PartsForOrdered(keys: seq<string>, scores: ScoreTable, i: nat, j: nat)
    requires i < j < |PartsFor(keys, scores)|
    ensures Before(keys, PartsFor(keys, scores)[i].key, PartsFor(keys, scores)[j].key)
  {
    var parts := PartsFor(keys, scores);
    var rest := PartsFor(keys[1..], scores);
    if keys[0] in scores {
      assert parts == [SummaryPart(keys[0], scores[keys[0]])] + rest;
      var y := rest[j - 1].key;
      assert parts[j].key == y;
      if i == 0 {
        PartsForContents(keys[1..], scores);
        assert rest[j - 1] in rest;
        BeforeFromHead(keys, y);
      } else {
        var x := rest[i - 1].key;
        assert parts[i].key == x;
        PartsForOrdered(keys[1..], scores, i - 1, j - 1);
        assert Before(keys[1..], x, y);
        BeforeInTail(keys, x, y);
      }
    } else {
      PartsForOrdered(keys[1..], scores, i, j);
      BeforeInTail(keys, rest[i].key, rest[j].key);
    }
  }

  function SummaryParts(scores: ScoreTable): seq<SummaryPart> {
    PartsFor(SummaryKeys, scores)
  }

  /** How a recorded value is spoken: a number in decimal, an option as its label. */
  function AnswerText(a: Answer): string {
    match a
    case Score(n) => if n >= 0 then NatToString(n) else "-" + NatToString(-n)
    case Choice(picked) => picked
  }

  function PartText(p: SummaryPart): (r: string)
    ensures |r| > 0 && SummaryLabel(p.key) <= r
  {
    SummaryLabel(p.key) + AnswerText(p.value) + "分"
  }

  function PartTexts(parts: seq<SummaryPart>): (r: seq<string>)
    ensures |r| == |parts|
    ensures forall i :: 0 <= i < |parts| ==> r[i] == PartText(parts[i])
  {
    if parts == [] then [] else [PartText(parts[0])] + PartTexts(parts[1..])
  }

  /** The symptom summary: the present parts joined by "、", or "狀況良好" when none of
      overall, pain, dyspnea, fatigue and cough was recorded. */
  function GenerateSummary(scores: ScoreTable): (r: string)
    ensures SummaryParts(scores) == [] ==> r == "狀況良好"
    ensures SummaryParts(scores) != [] ==> SummaryLabel(SummaryParts(scores)[0].key) <= r
  {
    var parts := SummaryParts(scores);
    if parts == [] then "狀況良好"
    else
      var texts := PartTexts(parts);
      var r := Join(texts, "、");
      assert SummaryLabel(parts[0].key) <= texts[0] <= r;
      r
  }

  /** The summary is "狀況良好" exactly when none of the five summary keys is recorded. */
  lemma GenerateSummaryEmptyIff(scores: ScoreTable)
    ensures GenerateSummary(scores) == "狀況良好" <==> forall k :: k in SummaryKeys ==> k !in scores
  {
    var parts := SummaryParts(scores);
    PartsForContents(SummaryKeys, scores);
    if parts != [] {
      assert parts[0] in parts;
      var head := SummaryLabel(parts[0].key);
      assert parts[0].key in SummaryKeys;
      assert |head| > 0 && head[0] != '狀';
      assert GenerateSummary(scores)[0] == head[0];
    }
  }
}
