/** The standalone web server of the older monitoring loop (web_server.py):
    the six-rule check of an analysis, one pass of the monitoring loop's
    record / notify / stop block, and the start, stop and configuration
    handlers. The global `monitor_state` and `monitor_config` dicts are the
    fields of one `MonitorServer` object. The regex engine is a parameter:
    `matcher(pattern, value)` is `re.match(pattern, value)` succeeding, None
    when the pattern does not compile. Timestamps are whole seconds. */
module WebServer {
  import opened Common
  import StateMgr
  import CoreSched

  // ------------------------------------------------------------ check_rules

  /** The six checks, in the order they run. */
  datatype Item = AtDesk | IsPlaying | Activity | PostureItem | LampOn | Lighting

  const Items: seq<Item> := [AtDesk, IsPlaying, Activity, PostureItem, LampOn, Lighting]

  /** The analysis key each check reads; it also names its rule. */
  function Key(i: Item): string
  {
    match i
    case AtDesk => "at_desk"
    case IsPlaying => "is_playing"
    case Activity => "activity"
    case PostureItem => "posture"
    case LampOn => "lamp_on"
    case Lighting => "lighting"
  }

  /** The checks of a flag, whose value is "是" or "否" by truthiness. */
  predicate IsFlag(i: Item)
  {
    i == AtDesk || i == IsPlaying || i == LampOn
  }

  /** The value matched: "是"/"否" for a flag, otherwise
      `analysis.get(key, "")`. */
  function ItemValue(analysis: map<string, Value>, i: Item): Value
  {
    if IsFlag(i) then VStr(if Truthy(Get(analysis, Key(i), VNone)) then "是" else "否")
    else Get(analysis, Key(i), VStr(""))
  }

  /** The entry added to the failed list. */
  function FailLabel(i: Item, value: string): string
  {
    match i
    case AtDesk => "在书桌前"
    case IsPlaying => "正在玩耍"
    case Activity => "活动: " + value
    case PostureItem => "坐姿: " + value
    case LampOn => "台灯"
    case Lighting => "照明: " + value
  }

  /** One check: None when it raises (a missing or non-string rule, a
      non-string value, a pattern that does not compile), else Some(None)
      on a match and Some(Some(label)) on a failure. */
  function CheckItem(analysis: map<string, Value>, rules: map<string, Value>,
                     matcher: (string, string) -> Option<bool>, i: Item): Option<Option<string>>
  {
    var value := ItemValue(analysis, i);
    if Key(i) !in rules || !rules[Key(i)].VStr? || !value.VStr? then None
    else match matcher(rules[Key(i)].s, value.s)
      case None => None
      case Some(true) => Some(None)
      case Some(false) => Some(Some(FailLabel(i, value.s)))
  }

  /** What a check does: None when it raises, Some(None) when it passes,
      Some(Some(label)) when it fails. */
  type Outcome = Option<Option<string>>

  /** What each of the six checks does, in order. */
  function Outcomes(analysis: map<string, Value>, rules: map<string, Value>,
                    matcher: (string, string) -> Option<bool>): (os: seq<Outcome>)
    ensures |os| == |Items| && forall j :: 0 <= j < |Items| ==> os[j] == CheckItem(analysis, rules, matcher, Items[j])
  {
    seq(|Items|, j requires 0 <= j < |Items| => CheckItem(analysis, rules, matcher, Items[j]))
  }

  /** The failed list built by the checks from the `k`-th on, None when one
      of them raises. */
  function FailedFrom(os: seq<Outcome>, k: nat): (r: Option<seq<string>>)
    requires k <= |os|
    ensures r.None? <==> exists j :: k <= j < |os| && os[j].None?
    ensures r.Some? ==> |r.value| <= |os| - k
    ensures r.Some? ==> (r.value == [] <==> forall j :: k <= j < |os| ==> os[j] == Some(None))
    decreases |os| - k
  {
    if k == |os| then Some([])
    else match os[k]
      case None => None
      case Some(outcome) =>
        match FailedFrom(os, k + 1)
        case None => None
        case Some(rest) => Some((if outcome.Some? then [outcome.value] else []) + rest)
  }

  /** The positions from the `k`-th on of the checks that fail, in order. */
  function FailingChecks(os: seq<Outcome>, k: nat): (idx: seq<nat>)
    requires k <= |os|
    ensures forall n :: 0 <= n < |idx| ==> k <= idx[n] < |os|
    decreases |os| - k
  {
    if k == |os| then []
    else (if os[k].Some? && os[k].value.Some? then [k] else []) + FailingChecks(os, k + 1)
  }

  /** Those positions are the failing checks, each once, increasing. */
  lemma {:induction false} FailingChecksExactly(os: seq<Outcome>, k: nat)
    requires k <= |os|
    ensures var idx := FailingChecks(os, k);
      && (forall n :: 0 <= n < |idx| ==> os[idx[n]].Some? && os[idx[n]].value.Some?)
      && (forall n, m :: 0 <= n < m < |idx| ==> idx[n] < idx[m])
      && (forall j :: k <= j < |os| && os[j].Some? && os[j].value.Some? ==> j in idx)
    decreases |os| - k
  {
    if k < |os| {
      FailingChecksExactly(os, k + 1);
    }
  }

  /** The failed list holds the label of every failing check, in check
      order: its n-th entry is the label of the n-th failing check. */
  lemma {:induction false} FailedInCheckOrder(os: seq<Outcome>, k: nat)
    requires k <= |os| && FailedFrom(os, k).Some?
    ensures var failed, idx := FailedFrom(os, k).value, FailingChecks(os, k);
      |failed| == |idx| && forall n :: 0 <= n < |failed| ==> os[idx[n]] == Some(Some(failed[n]))
    decreases |os| - k
  {
    if k < |os| {
      FailedInCheckOrder(os, k + 1);
      var outcome := os[k].value;
      var failed, rest := FailedFrom(os, k).value, FailedFrom(os, k + 1).value;
      var idx, tail := FailingChecks(os, k), FailingChecks(os, k + 1);
      assert failed == (if outcome.Some? then [outcome.value] else []) + rest;
      assert idx == (if outcome.Some? then [k] else []) + tail;
      if outcome.Some? {
        forall n | 0 < n < |failed|
          ensures os[idx[n]] == Some(Some(failed[n]))
        {
          assert failed[n] == rest[n - 1] && idx[n] == tail[n - 1];
        }
      }
    }
  }

  /** `check_rules`: (no failures, the failed labels in check order), None
      when a check raises. */
  function CheckRules(analysis: map<string, Value>, rules: map<string, Value>,
                      matcher: (string, string) -> Option<bool>): (r: Option<(bool, seq<string>)>)
    ensures r.None? <==> exists j :: 0 <= j < |Items| && CheckItem(analysis, rules, matcher, Items[j]).None?
    ensures r.Some? ==> (r.value.0 <==> r.value.1 == [])
    ensures r.Some? ==>
      (r.value.0 <==> forall j :: 0 <= j < |Items| ==> CheckItem(analysis, rules, matcher, Items[j]) == Some(None))
    // the labels of the failing checks, each once, in check order
    ensures r.Some? ==>
      var os := Outcomes(analysis, rules, matcher);
      var idx := FailingChecks(os, 0);
      && |r.value.1| == |idx|
      && (forall n :: 0 <= n < |idx| ==> os[idx[n]] == Some(Some(r.value.1[n])))
      && (forall n, m :: 0 <= n < m < |idx| ==> idx[n] < idx[m])
      && (forall j :: 0 <= j < |os| && os[j].Some? && os[j].value.Some? ==> j in idx)
  {
    var os := Outcomes(analysis, rules, matcher);
    match FailedFrom(os, 0)
    case None => None
    case Some(failed) =>
      FailedInCheckOrder(os, 0);
      FailingChecksExactly(os, 0);
      Some((failed == [], failed))
  }

  /** A failure of the first check is reported first, whatever fails after it. */
  lemma AtDeskReportedFirst(analysis: map<string, Value>, rules: map<string, Value>,
                            matcher: (string, string) -> Option<bool>)
    requires CheckItem(analysis, rules, matcher, AtDesk) == Some(Some("在书桌前"))
    requires CheckRules(analysis, rules, matcher).Some?
    ensures CheckRules(analysis, rules, matcher).value.1[0] == "在书桌前"
  {
    assert Items[0] == AtDesk;
  }

  // ------------------------------------------------------------- the loop

  /** `", ".join(parts)`. */
  function JoinWith(parts: seq<string>, sep: string): string
  {
    if parts == [] then ""
    else if |parts| == 1 then parts[0]
    else parts[0] + sep + JoinWith(parts[1..], sep)
  }

  /** What one pass decides: notify (and why), and whether to stop after
      how many seconds without a correct result. */
  datatype Verdict = Verdict(notify: bool, reason: string, stopAfter: Option<int>)

  /** The decision block of `monitor_loop`, given the last notification
      time and the last correct time (already updated by this pass). An
      interval that is not a number raises (None), but only when it is
      compared. */
  function Judge(correct: bool, failed: seq<string>, now: int, lastNotify: Option<int>, lastCorrect: Option<int>,
                 notifyInterval: Option<int>, stopInterval: Option<int>): (v: Option<Verdict>)
    ensures v.None? <==> (lastNotify.Some? && notifyInterval.None?) || (lastCorrect.Some? && stopInterval.None?)
    ensures v.Some? ==>
      (v.value.notify <==> !correct || (lastNotify.Some? && now - lastNotify.value >= notifyInterval.value))
    ensures v.Some? && lastNotify.Some? && now - lastNotify.value >= notifyInterval.value ==>
      v.value.reason == "定期状态更新"
    ensures v.Some? && !correct && !(lastNotify.Some? && now - lastNotify.value >= notifyInterval.value) ==>
      v.value.reason == "检查不合格: " + JoinWith(failed, ", ")
    ensures v.Some? ==>
      (v.value.stopAfter.Some? <==> lastCorrect.Some? && now - lastCorrect.value >= stopInterval.value)
    ensures v.Some? && v.value.stopAfter.Some? ==> v.value.stopAfter.value == now - lastCorrect.value
  {
    if (lastNotify.Some? && notifyInterval.None?) || (lastCorrect.Some? && stopInterval.None?) then None
    else
      var periodic := lastNotify.Some? && now - lastNotify.value >= notifyInterval.value;
      var reason := if periodic then "定期状态更新" else if !correct then "检查不合格: " + JoinWith(failed, ", ") else "";
      var stop := lastCorrect.Some? && now - lastCorrect.value >= stopInterval.value;
      Some(Verdict(!correct || periodic, reason, if stop then Some(now - lastCorrect.value) else None))
  }

  /** Monitoring never stops before its first correct result. */
  lemma NoStopBeforeFirstCorrect(failed: seq<string>, now: int, lastNotify: Option<int>,
                                 notifyInterval: Option<int>, stopInterval: Option<int>)
    requires Judge(false, failed, now, lastNotify, None, notifyInterval, stopInterval).Some?
    ensures Judge(false, failed, now, lastNotify, None, notifyInterval, stopInterval).value.stopAfter.None?
  {
  }

  /** Before any notification, only an incorrect result notifies. */
  lemma FirstNotificationNeedsFailure(failed: seq<string>, now: int, lastCorrect: Option<int>,
                                      notifyInterval: Option<int>, stopInterval: Option<int>)
    requires Judge(true, failed, now, None, lastCorrect, notifyInterval, stopInterval).Some?
    ensures !Judge(true, failed, now, None, lastCorrect, notifyInterval, stopInterval).value.notify
  {
  }

  /** The message sent when monitoring stops. */
  function StopMessage(seconds: int): string
  {
    "🚨 监控停止\n\n已连续" + IntToString(seconds) + "秒没有正确学习，监控停止"
  }

  /** One entry of `monitor_state["history"]`. */
  datatype HistoryItem = HistoryItem(timestamp: int, imagePath: string, analysis: map<string, Value>,
                                     isCorrect: bool, failedItems: seq<string>)

  /** How a pass of the loop ended. */
  datatype PassOutcome =
    /** Nothing was recorded: the capture, the analysis or the check raised. */
    | NotRecorded
    /** The snapshot was recorded, then an interval comparison raised. */
    | RecordedThenRaised
    /** The loop goes on to the next capture. */
    | Continued
    /** The stop interval elapsed: the loop ends. */
    | Stopped

  /** The notification sent for a pass that notifies. */
  function PassDecision(correct: bool, reason: string, analysis: map<string, Value>): CoreSched.Decision
  {
    CoreSched.Decision(true, reason, if correct then CoreSched.Info else CoreSched.Danger,
                       Get(analysis, "suggestion", VStr("")))
  }

  class MonitorServer {
    var running: bool
    var stopEvent: bool
    var lastCaptureTime: Option<int>
    var lastNotifyTime: Option<int>
    var lastCorrectTime: Option<int>
    var history: seq<HistoryItem>
    /** `monitor_config["rules"]` and `monitor_config["intervals"]`. */
    var rules: map<string, Value>
    var intervals: map<string, Value>
    /** The calls made on the IM module, oldest first. */
    var calls: seq<CoreSched.Call>
    /** How many monitoring threads were started. */
    var threadsStarted: nat

    ghost predicate Valid()
      reads this
    {
      |history| <= StateMgr.HistoryCap
    }

    constructor (rules: map<string, Value>, intervals: map<string, Value>)
      ensures Valid() && !running && !stopEvent && history == [] && calls == [] && threadsStarted == 0
      ensures lastCaptureTime.None? && lastNotifyTime.None? && lastCorrectTime.None?
      ensures this.rules == rules && this.intervals == intervals
    {
      running := false;
      stopEvent := false;
      lastCaptureTime, lastNotifyTime, lastCorrectTime := None, None, None;
      history := [];
      this.rules := rules;
      this.intervals := intervals;
      calls := [];
      threadsStarted := 0;
    }

    /** `monitor_config["intervals"][key]` as a number, None when missing or
        not a number. */
    function Interval(key: string): Option<int>
      reads this
    {
      if key in intervals then NumberOf(intervals[key]) else None
    }

    /** One pass of `monitor_loop` for the snapshot taken at `now`: the
        captured path and analysis (None when capture or analysis raised),
        then check, record (the history keeps the newest 100), decide, and
        either stop or notify. */
    method Pass(now: int, snapshot: Option<(string, map<string, Value>)>, matcher: (string, string) -> Option<bool>)
      returns (outcome: PassOutcome)
      requires Valid()
      modifies this`history, this`lastCaptureTime, this`lastCorrectTime, this`lastNotifyTime, this`running, this`calls
      ensures Valid()
      ensures snapshot.None? || CheckRules(snapshot.value.1, rules, matcher).None? ==>
        outcome == NotRecorded && history == old(history) && lastCaptureTime == old(lastCaptureTime) &&
        lastCorrectTime == old(lastCorrectTime) && lastNotifyTime == old(lastNotifyTime) &&
        running == old(running) && calls == old(calls)
      ensures snapshot.Some? && CheckRules(snapshot.value.1, rules, matcher).Some? ==>
        var (path, analysis) := snapshot.value;
        var (correct, failed) := CheckRules(analysis, rules, matcher).value;
        var lastCorrect := if correct then Some(now) else old(lastCorrectTime);
        var v := Judge(correct, failed, now, old(lastNotifyTime), lastCorrect, Interval("notify"), Interval("stop"));
        && history == StateMgr.Appended(old(history), HistoryItem(now, path, analysis, correct, failed))
        && lastCaptureTime == Some(now)
        && lastCorrectTime == lastCorrect
        && (v.None? ==> outcome == RecordedThenRaised && lastNotifyTime == old(lastNotifyTime) &&
                        running == old(running) && calls == old(calls))
        && (v.Some? && v.value.stopAfter.Some? ==>
              outcome == Stopped && !running && lastNotifyTime == old(lastNotifyTime) &&
              calls == old(calls) + [CoreSched.Notify(StopMessage(v.value.stopAfter.value), "danger")])
        && (v.Some? && v.value.stopAfter.None? ==>
              outcome == Continued && running == old(running) &&
              lastNotifyTime == (if v.value.notify then Some(now) else old(lastNotifyTime)) &&
              calls == old(calls) + (if v.value.notify
                                     then CoreSched.Calls(PassDecision(correct, v.value.reason, analysis), analysis, path)
                                     else []))
    {
      if snapshot.None? {
        return NotRecorded;
      }
      var (path, analysis) := snapshot.value;
      var checked := CheckRules(analysis, rules, matcher);
      if checked.None? {
        return NotRecorded;
      }
      var (correct, failed) := checked.value;
      outcome := Handle(now, path, analysis, correct, failed);
    }

    /** A pass after a check that did not raise. */
    method Handle(now: int, path: string, analysis: map<string, Value>, correct: bool, failed: seq<string>)
      returns (outcome: PassOutcome)
      requires Valid()
      modifies this`history, this`lastCaptureTime, this`lastCorrectTime, this`lastNotifyTime, this`running, this`calls
      ensures Valid()
      ensures history == StateMgr.Appended(old(history), HistoryItem(now, path, analysis, correct, failed))
      ensures lastCaptureTime == Some(now)
      ensures lastCorrectTime == if correct then Some(now) else old(lastCorrectTime)
      ensures var v := Judge(correct, failed, now, old(lastNotifyTime), lastCorrectTime, Interval("notify"), Interval("stop"));
        && (v.None? ==> outcome == RecordedThenRaised && lastNotifyTime == old(lastNotifyTime) &&
                        running == old(running) && calls == old(calls))
        && (v.Some? && v.value.stopAfter.Some? ==>
              outcome == Stopped && !running && lastNotifyTime == old(lastNotifyTime) &&
              calls == old(calls) + [CoreSched.Notify(StopMessage(v.value.stopAfter.value), "danger")])
        && (v.Some? && v.value.stopAfter.None? ==>
              outcome == Continued && running == old(running) &&
              lastNotifyTime == (if v.value.notify then Some(now) else old(lastNotifyTime)) &&
              calls == old(calls) + (if v.value.notify
                                     then CoreSched.Calls(PassDecision(correct, v.value.reason, analysis), analysis, path)
                                     else []))
    {
      Record(now, path, analysis, correct, failed);
      var v := Judge(correct, failed, now, lastNotifyTime, lastCorrectTime, Interval("notify"), Interval("stop"));
      if v.None? {
        return RecordedThenRaised;
      }
      outcome := Conclude(now, path, analysis, correct, v.value);
    }

    /** The recording part of a pass: the history entry, the capture time
        and, for a correct result, the last correct time. */
    method Record(now: int, path: string, analysis: map<string, Value>, correct: bool, failed: seq<string>)
      requires Valid()
      modifies this`history, this`lastCaptureTime, this`lastCorrectTime
      ensures Valid()
      ensures history == StateMgr.Appended(old(history), HistoryItem(now, path, analysis, correct, failed))
      ensures lastCaptureTime == Some(now)
      ensures lastCorrectTime == if correct then Some(now) else old(lastCorrectTime)
    {
      history := StateMgr.Appended(history, HistoryItem(now, path, analysis, correct, failed));
      lastCaptureTime := Some(now);
      if correct {
        lastCorrectTime := Some(now);
      }
    }

    /** The end of a pass: stop with the stop message, or send the
        notification when the verdict says so. */
    method Conclude(now: int, path: string, analysis: map<string, Value>, correct: bool, v: Verdict)
      returns (outcome: PassOutcome)
      modifies this`lastNotifyTime, this`running, this`calls
      ensures v.stopAfter.Some? ==>
        outcome == Stopped && !running && lastNotifyTime == old(lastNotifyTime) &&
        calls == old(calls) + [CoreSched.Notify(StopMessage(v.stopAfter.value), "danger")]
      ensures v.stopAfter.None? ==>
        outcome == Continued && running == old(running) &&
        lastNotifyTime == (if v.notify then Some(now) else old(lastNotifyTime)) &&
        calls == old(calls) + (if v.notify then CoreSched.Calls(PassDecision(correct, v.reason, analysis), analysis, path) else [])
    {
      if v.stopAfter.Some? {
        calls := calls + [CoreSched.Notify(StopMessage(v.stopAfter.value), "danger")];
        running := false;
        return Stopped;
      }
      if v.notify {
        calls := calls + CoreSched.Calls(PassDecision(correct, v.reason, analysis), analysis, path);
        lastNotifyTime := Some(now);
      }
      return Continued;
    }

    /** `POST /api/start`: refused while running; otherwise clear the stop
        event, mark running and start a monitoring thread. */
    method Start() returns (success: bool)
      modifies this`stopEvent, this`running, this`threadsStarted
      ensures success <==> !old(running)
      ensures running
      ensures success ==> !stopEvent && threadsStarted == old(threadsStarted) + 1
      ensures !success ==> stopEvent == old(stopEvent) && threadsStarted == old(threadsStarted)
    {
      if running {
        return false;
      }
      stopEvent := false;
      running := true;
      threadsStarted := threadsStarted + 1;
      return true;
    }

    /** `POST /api/stop`: refused when not running; otherwise set the stop
        event and mark stopped. */
    method Stop() returns (success: bool)
      modifies this`stopEvent, this`running
      ensures success <==> old(running)
      ensures !running
      ensures success ==> stopEvent
      ensures !success ==> stopEvent == old(stopEvent)
    {
      if !running {
        return false;
      }
      stopEvent := true;
      running := false;
      return true;
    }

    /** `POST /api/config`: merge the posted `rules`, then the posted
        `intervals`, into the configuration (absent ones merge nothing),
        then `save_config`. `data` is None when the body is not a JSON
        object; a part that is not an object raises, and a rules merge
        already done is kept. `saveRaises` is whether writing the file
        raises, which makes the reply unsuccessful with both merges kept. */
    method PostConfig(data: Option<map<string, Value>>, saveRaises: bool) returns (success: bool)
      modifies this`rules, this`intervals
      ensures var newRules := if data.Some? then Get(data.value, "rules", VDict(map[])) else VNone;
        var newIntervals := if data.Some? then Get(data.value, "intervals", VDict(map[])) else VNone;
        var merged := newRules.VDict? && newIntervals.VDict?;
        && (success <==> merged && !saveRaises)
        && rules == (if newRules.VDict? then old(rules) + newRules.entries else old(rules))
        && intervals == (if merged then old(intervals) + newIntervals.entries else old(intervals))
    {
      if data.None? {
        return false;
      }
      var newRules := Get(data.value, "rules", VDict(map[]));
      if !newRules.VDict? {
        return false;
      }
      rules := rules + newRules.entries;
      var newIntervals := Get(data.value, "intervals", VDict(map[]));
      if !newIntervals.VDict? {
        return false;
      }
      intervals := intervals + newIntervals.entries;
      return !saveRaises;
    }
  }

  /** A merge keeps the rules it does not mention and takes the ones it
      does. */
  lemma MergeIsPartial(old_: map<string, Value>, posted: map<string, Value>, k: string)
    ensures k in posted ==> (old_ + posted)[k] == posted[k]
    ensures k !in posted && k in old_ ==> k in old_ + posted && (old_ + posted)[k] == old_[k]
  {
  }
}
