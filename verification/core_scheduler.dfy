/** The decision centre of the older monitoring loop (core/scheduler.py,
    `Scheduler`): each analysed snapshot is recorded in the state manager,
    turned into a notification decision by fixed priority rules, and sent as
    a text report followed by the image. The vision analysis is a parameter;
    the notification calls are recorded in order, and since the outcome of
    each is ignored (an exception is only logged) nothing else depends on
    them. */
module CoreSched {
  import opened Common
  import opened StateMgr

  datatype Level = Info | Warning | Danger

  /** The level as the string handed to the notifiers. */
  function LevelName(l: Level): string
  {
    match l
    case Info => "info"
    case Warning => "warning"
    case Danger => "danger"
  }

  /** The decision dict: `should_notify`, `notify_reason`, `notify_level`
      and `suggestion`. */
  datatype Decision = Decision(shouldNotify: bool, reason: string, level: Level, suggestion: Value)

  /** The postures reported as bad. */
  const BadPostures: seq<string> := ["歪坐", "趴着", "不佳"]

  /** `posture in ["歪坐", "趴着", "不佳"]`: Python's `in` compares with
      `==`, so only a string can match. */
  predicate BadPosture(posture: Value)
  {
    posture.VStr? && posture.s in BadPostures
  }

  function IsPlaying(analysis: map<string, Value>): bool
  {
    Truthy(Get(analysis, "is_playing", VBool(false)))
  }

  function AtDesk(analysis: map<string, Value>): bool
  {
    Truthy(Get(analysis, "at_desk", VBool(true)))
  }

  function Posture(analysis: map<string, Value>): Value
  {
    Get(analysis, "posture", VStr("端正"))
  }

  /** `_make_decision`: always notify; playing is DANGER, away from the desk
      or a bad posture is WARNING, anything else INFO, in that priority. */
  function MakeDecision(analysis: map<string, Value>): (d: Decision)
    ensures d.shouldNotify
    ensures d.suggestion == Get(analysis, "suggestion", VStr(""))
    ensures d.level == Danger <==> IsPlaying(analysis)
    ensures d.level == Warning <==> !IsPlaying(analysis) && (!AtDesk(analysis) || BadPosture(Posture(analysis)))
    ensures d.level == Info <==> !IsPlaying(analysis) && AtDesk(analysis) && !BadPosture(Posture(analysis))
    ensures !IsPlaying(analysis) && AtDesk(analysis) && BadPosture(Posture(analysis)) ==>
      d.reason == "⚠️ 坐姿" + Posture(analysis).s
  {
    var suggestion := Get(analysis, "suggestion", VStr(""));
    var posture := Posture(analysis);
    if IsPlaying(analysis) then Decision(true, "⚠️ 检测到正在玩耍", Danger, suggestion)
    else if !AtDesk(analysis) then Decision(true, "⚠️ 不在书桌前", Warning, suggestion)
    else if BadPosture(posture) then Decision(true, "⚠️ 坐姿" + posture.s, Warning, suggestion)
    else Decision(true, "✓ 学习状态良好", Info, suggestion)
  }

  /** An empty analysis, with every default, is a good report. */
  lemma EmptyAnalysisIsInfo()
    ensures MakeDecision(map[]).level == Info
  {
    assert !BadPosture(VStr("端正")) by {
      assert "端正" != BadPostures[0] && "端正" != BadPostures[1] && "端正" != BadPostures[2];
    }
  }

  /** Playing outranks everything else the analysis says. */
  lemma PlayingOutranks(analysis: map<string, Value>, key: string, v: Value)
    requires IsPlaying(analysis) && key != "is_playing"
    ensures MakeDecision(analysis[key := v]).level == Danger
  {
    assert Get(analysis[key := v], "is_playing", VBool(false)) == Get(analysis, "is_playing", VBool(false));
  }

  /** The report title by level. */
  function Title(l: Level): (t: string)
    ensures t != ""
  {
    match l
    case Danger => "🚨 学习状态警告"
    case Warning => "⚠️ 学习提醒"
    case Info => "📝 学习状态报告"
  }

  /** Different levels get different titles. */
  lemma TitlesDistinct(a: Level, b: Level)
    requires a != b
    ensures Title(a) != Title(b)
  {
    assert Title(Danger)[0] != Title(Warning)[0] && Title(Danger)[0] != Title(Info)[0];
    assert Title(Warning)[0] != Title(Info)[0];
  }

  /** `'是' if state.get(key) else '否'`. */
  function YesNo(state: map<string, Value>, key: string): string
  {
    if Truthy(Get(state, key, VNone)) then "是" else "否"
  }

  /** `str(state.get(key, default))`. */
  function Shown(state: map<string, Value>, key: string, default: string): string
  {
    PyStr(Get(state, key, VStr(default)))
  }

  /** The detailed part of the report, from the current state. */
  function Details(state: map<string, Value>): string
  {
    "【详细分析】\n在书桌前: " + YesNo(state, "at_desk") +
    "\n正在玩耍: " + YesNo(state, "is_playing") +
    "\n当前活动: " + Shown(state, "activity", "未知") +
    "\n坐姿状态: " + Shown(state, "posture", "未知") +
    "\n台灯状态: " + (if Truthy(Get(state, "lamp_on", VNone)) then "开启" else "关闭") +
    "\n照明情况: " + Shown(state, "lighting", "未知") +
    "\n\n【完整描述】\n" + Shown(state, "overall_status", "无") +
    "\n\n【建议】\n" + Shown(state, "suggestion", "无") + "\n"
  }

  /** The report text: title, a blank line, the reason, a blank line, the
      details. */
  function Report(d: Decision, state: map<string, Value>): (text: string)
  {
    Title(d.level) + ("\n\n" + (d.reason + ("\n\n" + Details(state))))
  }

  /** The report opens with its level's title and then the reason. */
  lemma ReportOpensWithTitle(d: Decision, state: map<string, Value>)
    ensures |Title(d.level)| + 2 + |d.reason| <= |Report(d, state)|
    ensures Report(d, state)[..|Title(d.level)|] == Title(d.level)
    ensures Report(d, state)[|Title(d.level)| + 2..|Title(d.level)| + 2 + |d.reason|] == d.reason
  {
    var t, rest := Title(d.level), "\n\n" + (d.reason + ("\n\n" + Details(state)));
    assert Report(d, state) == t + rest;
    assert rest[2..2 + |d.reason|] == d.reason;
  }

  /** A call the scheduler makes on the IM module. */
  datatype Call = Notify(text: string, level: string) | SendImage(path: string)

  /** `_send_notification`: the text is always sent; the image is sent
      when the path is non-empty, whatever became of the text. */
  function Calls(d: Decision, state: map<string, Value>, imagePath: string): (calls: seq<Call>)
    ensures |calls| >= 1 && calls[0] == Notify(Report(d, state), LevelName(d.level))
    ensures |calls| == 2 <==> imagePath != ""
    ensures |calls| <= 2 && (|calls| == 2 ==> calls[1] == SendImage(imagePath))
  {
    [Notify(Report(d, state), LevelName(d.level))] + (if imagePath != "" then [SendImage(imagePath)] else [])
  }

  /** `get_summary`: a placeholder before any state, otherwise the newest
      timestamp and six fields of the current state. */
  function Summary(current: map<string, Value>, history: seq<Entry>): (s: map<string, Value>)
    ensures current == map[] ==> s == map["status" := VStr("无数据")]
    ensures current != map[] ==>
      s.Keys == {"timestamp", "at_desk", "is_playing", "activity", "posture", "lamp_on", "overall_status"}
    ensures current != map[] && history != [] ==> s["timestamp"] == VStr(history[|history| - 1].timestamp)
    ensures current != map[] && history == [] ==> s["timestamp"] == VNone
    ensures current != map[] ==> forall k :: k in s && k != "timestamp" ==> s[k] == Get(current, k, VNone)
  {
    if current == map[] then map["status" := VStr("无数据")]
    else map[
      "timestamp" := (if history != [] then VStr(history[|history| - 1].timestamp) else VNone),
      "at_desk" := Get(current, "at_desk", VNone),
      "is_playing" := Get(current, "is_playing", VNone),
      "activity" := Get(current, "activity", VNone),
      "posture" := Get(current, "posture", VNone),
      "lamp_on" := Get(current, "lamp_on", VNone),
      "overall_status" := Get(current, "overall_status", VNone)
    ]
  }

  class Scheduler {
    const stateManager: StateManager
    var running: bool
    /** The calls made on the IM module, oldest first. */
    var calls: seq<Call>

    constructor (stateManager: StateManager)
      ensures this.stateManager == stateManager && !running && calls == []
    {
      this.stateManager := stateManager;
      running := false;
      calls := [];
    }

    /** `analyze_and_decide`: record the analysis, decide, notify. The
        analysis is None when `vision.analyze` raised, which propagates with
        nothing recorded. */
    method AnalyzeAndDecide(imagePath: string, analyzed: Option<map<string, Value>>, timestamp: string)
      returns (r: Option<(map<string, Value>, Decision)>)
      requires stateManager.Valid()
      modifies stateManager, this`calls
      ensures stateManager.Valid()
      ensures analyzed.None? ==>
        r.None? && calls == old(calls) &&
        stateManager.history == old(stateManager.history) && stateManager.currentState == old(stateManager.currentState)
      ensures analyzed.Some? ==>
        var a := analyzed.value;
        r == Some((a, MakeDecision(a))) &&
        stateManager.currentState == a &&
        stateManager.history == Appended(old(stateManager.history), Entry(timestamp, a)) &&
        calls == old(calls) + Calls(MakeDecision(a), a, imagePath)
      ensures stateManager.alertCount == old(stateManager.alertCount)
    {
      if analyzed.None? {
        return None;
      }
      var analysis := analyzed.value;
      stateManager.UpdateState(analysis, timestamp);
      var decision := MakeDecision(analysis);
      if decision.shouldNotify {
        SendNotification(decision, imagePath);
      }
      return Some((analysis, decision));
    }

    /** `_send_notification`, reporting on the state manager's current state. */
    method SendNotification(d: Decision, imagePath: string)
      modifies this`calls
      ensures calls == old(calls) + Calls(d, stateManager.currentState, imagePath)
    {
      var message := Report(d, stateManager.currentState);
      calls := calls + [Notify(message, LevelName(d.level))];
      if imagePath != "" {
        calls := calls + [SendImage(imagePath)];
      }
    }

    /** `shutdown`. */
    method Shutdown()
      modifies this`running
      ensures !running
    {
      running := false;
    }
  }
}
