/** The monitoring service (src/monitor/simple_monitor_service.py): it owns
    the start/stop flags and the counters, runs one snapshot through
    analysis, rule check, notification decision, record and notification,
    drives the daily scheduler, and dispatches configuration updates to the
    rule checker, the scheduler and the notification manager.

    The vision analyzer, the messenger and the record store are parameters:
    `AnalyzeOutcome` is what `vision.analyze` returns, `SendOutcome` what a
    messenger send returns, and every record `storage.save` is asked to
    keep, and every message sent, is appended to the service's `log`. Worker
    threads are not modelled: a call says whether it runs on the monitor
    thread (`fromWorker`), and a thread is only a flag saying one was
    started and not yet joined. */
module MonitorSvc {
  import opened Common
  import opened Config
  import opened RuleCheck
  import opened Notify
  import opened Schedule
  import CameraDevice
  import opened CameraSvc
  import Messages

  /** `_convert_level`: each notification level to the message level of the
      same name. */
  function ConvertLevel(level: NotifyLevel): (m: Messages.MessageLevel)
    ensures level == Info <==> m == Messages.MessageLevel.Info
    ensures level == Warning <==> m == Messages.MessageLevel.Warning
    ensures level == Danger <==> m == Messages.MessageLevel.Danger
  {
    match level
    case Info => Messages.MessageLevel.Info
    case Warning => Messages.MessageLevel.Warning
    case Danger => Messages.MessageLevel.Danger
  }

  /** The conversion loses nothing: distinct levels stay distinct. */
  lemma ConvertLevelInjective(a: NotifyLevel, b: NotifyLevel)
    requires ConvertLevel(a) == ConvertLevel(b)
    ensures a == b
  {
  }

  /** `MonitorStatus`. */
  datatype MonitorStatus = MonitorStatus(
    isMonitoring: bool,
    isTimeSchedulerRunning: bool,
    startTime: Option<DateTime>,
    stopTime: Option<DateTime>,
    snapshotsProcessed: nat,
    notificationsSent: nat,
    lastNotifyResult: Option<NotifyResult>,
    consecutiveFailures: int)

  const InitialStatus := MonitorStatus(false, false, None, None, 0, 0, None, 0)

  /** What `vision.analyze` does: the analysis as a dict in insertion
      order, or an exception with its message. */
  datatype AnalyzeOutcome = Analyzed(items: seq<(string, Value)>) | AnalyzeRaised(msg: string)

  /** What a messenger send does: a flag, or an exception. */
  datatype SendOutcome = Delivered(ok: bool) | SendRaised

  /** The arguments of one `storage.save`. */
  datatype Record = Record(imagePath: string, isValid: bool, issues: map<string, string>, shouldNotify: bool,
                           analysis: map<string, Value>)

  /** What the service hands to its collaborators, in order. */
  datatype Event =
    | Saved(record: Record)
    | SentText(text: string, level: Messages.MessageLevel)
    | SentImage(path: string, level: Messages.MessageLevel)

  /** The dict built from the analysis items: a later key wins. */
  function AsMap(items: seq<(string, Value)>): (m: map<string, Value>)
    ensures forall k :: k in m <==> exists i :: 0 <= i < |items| && items[i].0 == k
    // each key holds the value of its last item
    ensures forall i :: 0 <= i < |items| && (forall j :: i < j < |items| ==> items[j].0 != items[i].0) ==>
      m[items[i].0] == items[i].1
    decreases |items|
  {
    if items == [] then map[]
    else
      var init, last := items[..|items| - 1], items[|items| - 1];
      var m := AsMap(init)[last.0 := last.1];
      assert forall k :: k in m <==> exists i :: 0 <= i < |items| && items[i].0 == k by {
        forall k | k in m ensures exists i :: 0 <= i < |items| && items[i].0 == k {
          if k != last.0 {
            var i :| 0 <= i < |init| && init[i].0 == k;
            assert items[i] == init[i];
          }
        }
        forall i | 0 <= i < |items| ensures items[i].0 in m {
          if i < |init| {
            assert init[i] == items[i];
          }
        }
      }
      assert forall i :: 0 <= i < |items| && (forall j :: i < j < |items| ==> items[j].0 != items[i].0) ==> m[items[i].0] == items[i].1 by {
        forall i | 0 <= i < |items| && (forall j :: i < j < |items| ==> items[j].0 != items[i].0)
          ensures m[items[i].0] == items[i].1
        {
          if i < |init| {
            assert items[i] == init[i] && items[|items| - 1] == last;
            assert forall j :: i < j < |init| ==> init[j] == items[j];
          }
        }
      }
      m
  }

  /** The result `process_snapshot` returns when a step raises. */
  function FailureResult(msg: string): (r: NotifyResult)
    ensures !r.shouldNotify && !r.shouldStop && r.level == Info
  {
    NotifyResult(false, false, Info, "处理失败: " + msg)
  }

  /** `str()` of the KeyError `check` raises: the first field missing from
      the first malformed rule, quoted. */
  function KeyErrorText(rules: seq<Rule>): (s: string)
    ensures !AllHaveFields(rules) ==> s == "'key'" || s == "'regexp'"
    decreases |rules|
  {
    if rules == [] then ""
    else if "key" !in rules[0] then "'key'"
    else if "regexp" !in rules[0] then "'regexp'"
    else
      assert !AllHaveFields(rules) ==> !AllHaveFields(rules[1..]) by {
        if !AllHaveFields(rules) {
          var i :| 0 <= i < |rules| && !HasFields(rules[i]);
          assert rules[1..][i - 1] == rules[i];
        }
      }
      KeyErrorText(rules[1..])
  }

  /** `strftime('%Y-%m-%d %H:%M:%S')`. */
  function TimeText(t: DateTime): string
  {
    ZeroPad(t.year, 4) + "-" + ZeroPad(t.month, 2) + "-" + ZeroPad(t.day, 2) + " " +
    ZeroPad(t.hour, 2) + ":" + ZeroPad(t.minute, 2) + ":" + ZeroPad(t.second, 2)
  }

  /** One line of the analysis section: `f"  {key}: {value}\n"`. */
  function ResultLine(item: (string, Value)): string
  {
    "  " + item.0 + ": " + PyStr(item.1) + "\n"
  }

  /** The analysis lines, one per item in order. */
  function Lines(items: seq<(string, Value)>): (ls: seq<string>)
    ensures |ls| == |items| && forall i :: 0 <= i < |items| ==> ls[i] == ResultLine(items[i])
  {
    seq(|items|, i requires 0 <= i < |items| => ResultLine(items[i]))
  }

  /** The lines joined one after the other. */
  function Concat(ls: seq<string>): string
    decreases |ls|
  {
    if ls == [] then "" else Concat(ls[..|ls| - 1]) + ls[|ls| - 1]
  }

  /** Joining a concatenation is concatenating the joins. */
  lemma {:induction false} ConcatAppend(a: seq<string>, b: seq<string>)
    ensures Concat(a + b) == Concat(a) + Concat(b)
    decreases |b|
  {
    if b != [] {
      var ab := a + b;
      assert ab[..|ab| - 1] == a + b[..|b| - 1] && ab[|ab| - 1] == b[|b| - 1];
      ConcatAppend(a, b[..|b| - 1]);
    } else {
      assert a + b == a;
    }
  }

  /** The analysis section of the notification. */
  function ResultLines(items: seq<(string, Value)>): string
  {
    Concat(Lines(items))
  }

  function Header(failures: int): string
  {
    "Study Buddy Notification\n\n" + "Consecutive Failures: " + IntToString(failures) + "\n\n" + "Analysis Results:\n"
  }

  /** The notification text: the header with the failure count, a line per
      analysis item, then the time. */
  function NotificationText(failures: int, items: seq<(string, Value)>, now: DateTime): string
  {
    Header(failures) + ResultLines(items) + Footer(now)
  }

  function Footer(now: DateTime): string
  {
    "\nTime: " + TimeText(now)
  }

  /** A string contains whatever sits in its middle. */
  lemma ContainsMiddle(p: string, m: string, q: string)
    ensures Contains(p + m + q, m)
  {
    var s := p + m + q;
    assert s[|p|..|p| + |m|] == m;
    ContainsAt(s, m, |p|);
  }

  /** Regrouping the five pieces of the notification text. */
  lemma Regroup(a: string, b: string, c: string, d: string, e: string)
    ensures a + (b + c + d) + e == (a + b) + c + (d + e)
  {
  }

  lemma Regroup3(a: string, b: string, c: string)
    ensures (a + b) + c == a + (b + c)
  {
  }

  /** Every analysis item appears as its own line of the notification. */
  lemma NotificationListsEveryItem(failures: int, items: seq<(string, Value)>, now: DateTime, i: nat)
    requires i < |items|
    ensures Contains(NotificationText(failures, items, now), ResultLine(items[i]))
  {
    var ls := Lines(items);
    var line := ResultLine(items[i]);
    var before, after := ls[..i], ls[i + 1..];
    assert ls == before + [line] + after;
    ConcatAppend(before + [line], after);
    ConcatAppend(before, [line]);
    assert Concat([line]) == line by {
      assert [line][..0] == [];
    }
    var h, f := Header(failures), Footer(now);
    var cb, ca := Concat(before), Concat(after);
    assert Concat(ls) == cb + line + ca;
    Regroup(h, cb, line, ca, f);
    ContainsMiddle(h + cb, line, ca + f);
  }

  /** The text `_send_notification` builds, line by line. */
  method BuildMessage(failures: int, items: seq<(string, Value)>, now: DateTime) returns (message: string)
    ensures message == NotificationText(failures, items, now)
  {
    message := Header(failures);
    var i := 0;
    while i < |items|
      invariant 0 <= i <= |items|
      invariant message == Header(failures) + Concat(Lines(items[..i]))
    {
      var done, line := Concat(Lines(items[..i])), ResultLine(items[i]);
      var ls := Lines(items[..i + 1]);
      assert ls[..i] == Lines(items[..i]) && ls[i] == line;
      assert Concat(ls) == done + line;
      Regroup3(Header(failures), done, line);
      message := message + line;
      i := i + 1;
    }
    assert items[..i] == items;
    message := message + Footer(now);
  }

  /** The messages `_send_notification` sends: the text, then the image
      unless the text send raised. */
  function NoticeEvents(text: string, level: Messages.MessageLevel, imagePath: string, textSend: SendOutcome): (es: seq<Event>)
    ensures |es| >= 1 && es[0] == SentText(text, level)
    ensures |es| == 2 <==> !textSend.SendRaised?
  {
    [SentText(text, level)] + (if textSend.SendRaised? then [] else [SentImage(imagePath, level)])
  }

  /** Whether `_send_notification` counts a notification: both sends
      returned (neither raised) and at least one succeeded. */
  predicate Counted(textSend: SendOutcome, imageSend: SendOutcome)
  {
    textSend.Delivered? && imageSend.Delivered? && (textSend.ok || imageSend.ok)
  }

  /** The keyword arguments' value for `key` (`kwargs.get(key)`). */
  function Lookup(kwargs: seq<(string, Value)>, key: string): (v: Option<Value>)
    ensures v.Some? <==> exists i :: 0 <= i < |kwargs| && kwargs[i].0 == key
    decreases |kwargs|
  {
    if kwargs == [] then None
    else if kwargs[|kwargs| - 1].0 == key then Some(kwargs[|kwargs| - 1].1)
    else
      var v := Lookup(kwargs[..|kwargs| - 1], key);
      assert v.Some? <==> exists i :: 0 <= i < |kwargs| && kwargs[i].0 == key by {
        if exists i :: 0 <= i < |kwargs| && kwargs[i].0 == key {
          var i :| 0 <= i < |kwargs| && kwargs[i].0 == key;
          assert kwargs[..|kwargs| - 1][i].0 == key;
        }
      }
      v
  }

  /** An item `_validate_rules` accepts apart from its pattern: a dict with
      string "key" and "regexp" fields. */
  predicate RuleDict(item: Value)
  {
    item.VDict? && "key" in item.entries && item.entries["key"].VStr? &&
    "regexp" in item.entries && item.entries["regexp"].VStr?
  }

  /** The rule the checker sees for one item it iterates: a dict keeps its
      string-valued fields and drops the others; anything else is a rule
      without fields, on which validation and `check` raise just as on a
      dict without "key". */
  function RuleOf(item: Value): (rule: Rule)
    ensures HasFields(rule) <==> RuleDict(item)
    ensures HasFields(rule) ==> rule["key"] == item.entries["key"].s && rule["regexp"] == item.entries["regexp"].s
  {
    if item.VDict? then map k | k in item.entries && item.entries[k].VStr? :: item.entries[k].s else map[]
  }

  /** What `update_rules` stores, as the checker iterates it: one rule per
      item of a list; one rule without fields per character of a string or
      key of a dict (iterating those yields strings, which validation and
      `check` refuse); one rule without fields for a value that cannot be
      iterated, on which both raise. */
  function RulesOf(v: Value): (rules: seq<Rule>)
    ensures v.VList? ==> |rules| == |v.items| && forall i :: 0 <= i < |v.items| ==> rules[i] == RuleOf(v.items[i])
    // every stored rule has both fields exactly for a list of rule dicts, an empty string and an empty dict
    ensures AllHaveFields(rules) <==>
      (v.VList? && forall i :: 0 <= i < |v.items| ==> RuleDict(v.items[i])) || v == VStr("") || v == VDict(map[])
  {
    match v
    case VList(items) => seq(|items|, i requires 0 <= i < |items| => RuleOf(items[i]))
    case VStr(s) =>
      var rules := seq(|s|, i => map[]);
      assert rules != [] ==> !HasFields(rules[0]);
      rules
    case VDict(entries) =>
      var rules := seq(|entries|, i => map[]);
      assert rules != [] ==> !HasFields(rules[0]);
      assert entries != map[] ==> |entries| > 0 by {
        if entries != map[] {
          var k :| k in entries;
        }
      }
      rules
    case _ =>
      assert !HasFields([map[]][0]);
      [map[]]
  }

  /** `int(kwargs[key]) if kwargs.get(key) is not None else None`, with the
      ValueError or TypeError of `int()` as BadArg. */
  datatype IntArg = NoArg | IntArg(i: int) | BadArg

  function NotifyArg(kwargs: seq<(string, Value)>, key: string): (a: IntArg)
    ensures a.NoArg? <==> Lookup(kwargs, key).None? || Lookup(kwargs, key) == Some(VNone)
    ensures a.BadArg? <==> Lookup(kwargs, key).Some? && Lookup(kwargs, key) != Some(VNone) && IntOf(Lookup(kwargs, key).value).None?
  {
    match Lookup(kwargs, key)
    case None => NoArg
    case Some(v) =>
      if v == VNone then NoArg
      else match IntOf(v)
        case Some(i) => IntArg(i)
        case None => BadArg
  }

  function ArgValue(a: IntArg): Option<int>
  {
    if a.IntArg? then Some(a.i) else None
  }

  /** A setting after `update_config`: kept when its argument is absent or
      None, otherwise what `int()` makes of the argument. */
  predicate Converted(kwargs: seq<(string, Value)>, key: string, before: int, after: int)
  {
    if Lookup(kwargs, key).None? || Lookup(kwargs, key) == Some(VNone) then after == before
    else IntOf(Lookup(kwargs, key).value) == Some(after)
  }

  /** The notification settings after `notify_manager.update_config` with
      the three converted arguments; None when one of them does not convert
      (the exception raised before the call). */
  function NotifyUpdate(c: NotifyConfig, kwargs: seq<(string, Value)>): (r: Option<NotifyConfig>)
    ensures r.None? <==>
      NotifyArg(kwargs, "min_notify_interval").BadArg? || NotifyArg(kwargs, "max_notify_interval").BadArg? ||
      NotifyArg(kwargs, "consecutive_fail_limit").BadArg?
    ensures r.Some? ==>
      Converted(kwargs, "min_notify_interval", c.minInterval, r.value.minInterval) &&
      Converted(kwargs, "max_notify_interval", c.maxInterval, r.value.maxInterval) &&
      Converted(kwargs, "consecutive_fail_limit", c.failLimit, r.value.failLimit)
  {
    var minArg, maxArg, limitArg :=
      NotifyArg(kwargs, "min_notify_interval"), NotifyArg(kwargs, "max_notify_interval"), NotifyArg(kwargs, "consecutive_fail_limit");
    if minArg.BadArg? || maxArg.BadArg? || limitArg.BadArg? then None
    else Some(NotifyConfig(
      if minArg.IntArg? then minArg.i else c.minInterval,
      if maxArg.IntArg? then maxArg.i else c.maxInterval,
      if limitArg.IntArg? then limitArg.i else c.failLimit))
  }

  predicate SchedulerKeySupplied(kwargs: seq<(string, Value)>)
  {
    Lookup(kwargs, "enable_time_scheduler").Some? || Lookup(kwargs, "auto_start_time").Some? ||
    Lookup(kwargs, "auto_stop_time").Some?
  }

  predicate NotifyKeySupplied(kwargs: seq<(string, Value)>)
  {
    Lookup(kwargs, "min_notify_interval").Some? || Lookup(kwargs, "max_notify_interval").Some? ||
    Lookup(kwargs, "consecutive_fail_limit").Some?
  }

  /** What `update_config` ends with: success, or the exception that ended
      it early. */
  datatype UpdateResult = UpdateDone | ConfigRaised | RulesRejected | NotifyArgRaised

  /** Whether `start_time_scheduler` would accept the configuration. */
  predicate SchedulerEnabled(c: MonitorConfigData)
  {
    Truthy(c.enableTimeScheduler) && Truthy(c.autoStartTime) && Truthy(c.autoStopTime)
  }

  /** The window the scheduler thread parses when it starts, in minutes
      since midnight; None when either time does not parse, which ends the
      thread before its first tick. */
  function Window(c: MonitorConfigData): (w: Option<(int, int)>)
    ensures w.Some? <==> ParseHHMM(c.autoStartTime).Some? && ParseHHMM(c.autoStopTime).Some?
  {
    var start, stop := ParseHHMM(c.autoStartTime), ParseHHMM(c.autoStopTime);
    if start.Some? && stop.Some? then Some((start.value, stop.value)) else None
  }

  /** The scheduler thread, started with the flag at `before`, ticked at
      the first `ticks` of `clocks` and left the flag at `after`; it ticked
      at all of them unless a stop blocked it at the last one it reached. */
  ghost predicate Ticked(startMin: int, stopMin: int, before: bool, clocks: seq<DateTime>, ticks: nat, hangs: bool, after: bool)
  {
    ticks <= |clocks| &&
    after == Run(startMin, stopMin, RunState(NoChecks, before), Quiet(clocks)[..ticks]).monitoring &&
    (!hangs ==> ticks == |clocks|) &&
    (hangs ==> 0 < ticks && TickAt(startMin, stopMin, RunState(NoChecks, before), Quiet(clocks), ticks - 1).stop)
  }

  class SimpleMonitorService {
    const config: MonitorConfig
    const ruleChecker: SimpleRuleChecker
    const notifyManager: NotifyManager
    const camera: CameraService?
    var monitoring: bool
    var timeSchedulerRunning: bool
    /** A monitor thread was started and not joined. */
    var monitorThread: bool
    /** A scheduler thread was started and not joined. */
    var schedulerThread: bool
    var status: MonitorStatus
    var log: seq<Event>

    /** The camera objects `stop_monitor` may change. */
    function CameraObjects(): set<object>
    {
      if camera != null then {camera, camera.camera} else {}
    }

    /** The status mirrors the two flags, and the camera is consistent. */
    ghost predicate Valid()
      reads this, CameraObjects()
    {
      status.isMonitoring == monitoring && status.isTimeSchedulerRunning == timeSchedulerRunning &&
      (camera != null ==> camera.camera.Valid())
    }

    /** Whether `camera.shutdown()` would never return: the camera service
        is still in preview (the preview phase skips `stop_preview` once
        monitoring was stopped), or its lock is held by such a call. */
    ghost predicate CameraStuck()
      reads this, CameraObjects()
    {
      camera != null && (camera.locked || camera.currentMode == Some(PreviewMode))
    }

    /** The collaborators are built by the caller; the flags start cleared. */
    constructor (config: MonitorConfig, ruleChecker: SimpleRuleChecker, notifyManager: NotifyManager, camera: CameraService?)
      requires camera != null ==> camera.camera.Valid()
      ensures Valid()
      ensures this.config == config && this.ruleChecker == ruleChecker
      ensures this.notifyManager == notifyManager && this.camera == camera
      ensures !monitoring && !timeSchedulerRunning && !monitorThread && !schedulerThread
      ensures status == InitialStatus && log == []
    {
      this.config := config;
      this.ruleChecker := ruleChecker;
      this.notifyManager := notifyManager;
      this.camera := camera;
      monitoring, timeSchedulerRunning := false, false;
      monitorThread, schedulerThread := false, false;
      status := InitialStatus;
      log := [];
    }

    /** `start_monitor`: refused while monitoring; otherwise set both flags,
        record the start time, reset the notification state and start the
        monitor thread. */
    method StartMonitor(now: DateTime) returns (ok: bool)
      requires Valid()
      modifies this`monitoring, this`status, this`monitorThread
      modifies notifyManager`consecutiveFailures, notifyManager`lastNotifyTime
      ensures Valid()
      ensures ok <==> !old(monitoring)
      ensures monitoring
      ensures old(monitoring) ==>
        status == old(status) && monitorThread == old(monitorThread) && notifyManager.State() == old(notifyManager.State())
      ensures !old(monitoring) ==>
        status == old(status).(isMonitoring := true, startTime := Some(now)) &&
        monitorThread && notifyManager.State() == Notify.Fresh
    {
      if monitoring {
        return false;
      }
      monitoring := true;
      status := status.(isMonitoring := true, startTime := Some(now));
      notifyManager.Reset();
      monitorThread := true;
      return true;
    }

    /** `stop_monitor`: refused when not monitoring; otherwise clear both
        flags, record the stop time, join the monitor thread unless called
        from it, and shut the camera down. The camera shutdown never returns
        when the camera is stuck in preview (`hangs`): the flags are already
        cleared, the lock stays held and the calling thread blocks. */
    method StopMonitor(now: DateTime, fromWorker: bool, open: CameraDevice.OpenOutcome) returns (ok: bool, hangs: bool)
      requires Valid()
      modifies this`monitoring, this`status, this`monitorThread, CameraObjects()
      ensures Valid()
      ensures ok <==> old(monitoring)
      ensures hangs <==> old(monitoring) && old(CameraStuck())
      ensures !monitoring
      ensures !old(monitoring) ==>
        status == old(status) && monitorThread == old(monitorThread) && unchanged(CameraObjects())
      ensures old(monitoring) ==>
        status == old(status).(isMonitoring := false, stopTime := Some(now)) &&
        monitorThread == (old(monitorThread) && fromWorker)
      ensures hangs ==>
        camera.locked && camera.currentMode == old(camera.currentMode) && camera.previewClientId == old(camera.previewClientId) &&
        camera.camera.cap == old(camera.camera.cap) && camera.camera.mode == old(camera.camera.mode)
      ensures old(monitoring) && !hangs && camera != null ==>
        !camera.locked && camera.currentMode.None? && camera.previewClientId.None? && camera.previewClientTime.None? &&
        camera.camera.cap.None? && camera.camera.mode.None?
    {
      if !monitoring {
        return false, false;
      }
      monitoring := false;
      status := status.(isMonitoring := false, stopTime := Some(now));
      var calledFromMonitorThread := monitorThread && fromWorker;
      if !calledFromMonitorThread && monitorThread {
        monitorThread := false;
      }
      hangs := false;
      if camera != null {
        hangs := camera.ShutdownAsWritten(open);
      }
      return true, hangs;
    }

    /** `_send_notification`: build the text, send it, then send the image
        whatever the text send returned; count the notification when
        either succeeded. An exception from a send ends it uncounted. */
    method SendNotification(r: NotifyResult, imagePath: string, items: seq<(string, Value)>, now: DateTime,
                            textSend: SendOutcome, imageSend: SendOutcome)
      modifies this`status, this`log
      ensures log == old(log) +
        NoticeEvents(NotificationText(notifyManager.consecutiveFailures, items, now), ConvertLevel(r.level), imagePath, textSend)
      ensures status == old(status).(notificationsSent := old(status).notificationsSent + (if Counted(textSend, imageSend) then 1 else 0))
    {
      var message := BuildMessage(notifyManager.consecutiveFailures, items, now);
      var level := ConvertLevel(r.level);
      log := log + [SentText(message, level)];
      if textSend.SendRaised? {
        return;
      }
      log := log + [SentImage(imagePath, level)];
      if imageSend.SendRaised? {
        return;
      }
      if textSend.ok || imageSend.ok {
        status := status.(notificationsSent := status.notificationsSent + 1);
      }
    }

    /** The decision step of `process_snapshot`: ask the notification
        manager, count the snapshot and save its record. */
    method RecordDecision(imagePath: string, chk: RuleCheckResult, items: seq<(string, Value)>, now: int)
      returns (r: NotifyResult)
      modifies this`status, this`log, notifyManager`consecutiveFailures, notifyManager`lastNotifyTime
      ensures var d := Decide(notifyManager.Config(), old(notifyManager.State()), Cycle(chk.isValid, now));
        r == d.result && notifyManager.State() == d.next &&
        log == old(log) + [Saved(Record(imagePath, chk.isValid, chk.failedFields, r.shouldNotify, AsMap(items)))] &&
        status == old(status).(lastNotifyResult := Some(r), snapshotsProcessed := old(status.snapshotsProcessed) + 1,
                               consecutiveFailures := d.next.failures)
    {
      r := notifyManager.ShouldNotifyStop(chk.isValid, now);
      status := status.(lastNotifyResult := Some(r), snapshotsProcessed := status.snapshotsProcessed + 1,
                        consecutiveFailures := notifyManager.consecutiveFailures);
      log := log + [Saved(Record(imagePath, chk.isValid, chk.failedFields, r.shouldNotify, AsMap(items)))];
    }

    /** The part of `process_snapshot` after a successful check: decide,
        count, save the record, notify when asked to, stop when asked to. */
    method AfterCheck(imagePath: string, chk: RuleCheckResult, items: seq<(string, Value)>, now: int, clock: DateTime,
                      textSend: SendOutcome, imageSend: SendOutcome, fromWorker: bool,
                      open: CameraDevice.OpenOutcome) returns (r: NotifyResult, hangs: bool)
      requires Valid()
      modifies this`status, this`log, this`monitoring, this`monitorThread
      modifies notifyManager`consecutiveFailures, notifyManager`lastNotifyTime, CameraObjects()
      ensures Valid()
      ensures hangs <==> r.shouldStop && old(monitoring) && old(CameraStuck())
      ensures var d := Decide(notifyManager.Config(), old(notifyManager.State()), Cycle(chk.isValid, now));
        r == d.result && notifyManager.State() == d.next &&
        log == old(log) + [Saved(Record(imagePath, chk.isValid, chk.failedFields, r.shouldNotify, AsMap(items)))] +
          (if r.shouldNotify
           then NoticeEvents(NotificationText(d.next.failures, items, clock), ConvertLevel(r.level), imagePath, textSend)
           else []) &&
        status.snapshotsProcessed == old(status.snapshotsProcessed) + 1 &&
        status.consecutiveFailures == d.next.failures && status.lastNotifyResult == Some(r) &&
        status.notificationsSent == old(status.notificationsSent) + (if r.shouldNotify && Counted(textSend, imageSend) then 1 else 0) &&
        monitoring == (old(monitoring) && !r.shouldStop)
    {
      r := RecordDecision(imagePath, chk, items, now);
      if r.shouldNotify {
        SendNotification(r, imagePath, items, clock, textSend, imageSend);
      }
      hangs := false;
      if r.shouldStop {
        var _, h := StopMonitor(clock, fromWorker, open);
        hangs := h;
      }
    }

    /** `process_snapshot`: analyze, check, decide, count, save, notify when
        asked to, stop when asked to. An exception from the analysis or the
        check ends it with a quiet INFO result and nothing changed. */
    method ProcessSnapshot(imagePath: string, analyzed: AnalyzeOutcome, matcher: Matcher, now: int, clock: DateTime,
                           textSend: SendOutcome, imageSend: SendOutcome, fromWorker: bool,
                           open: CameraDevice.OpenOutcome) returns (r: NotifyResult, hangs: bool)
      requires Valid()
      modifies this`status, this`log, this`monitoring, this`monitorThread
      modifies notifyManager`consecutiveFailures, notifyManager`lastNotifyTime, CameraObjects()
      ensures Valid()
      // a stop asked for by the decision never returns when the camera is stuck in preview
      ensures hangs <==>
        analyzed.Analyzed? && CheckSpec(ruleChecker.rules, AsMap(analyzed.items), matcher).Checked? &&
        r.shouldStop && old(monitoring) && old(CameraStuck())
      ensures analyzed.AnalyzeRaised? ==>
        r == FailureResult(analyzed.msg) && status == old(status) && log == old(log) &&
        monitoring == old(monitoring) && notifyManager.State() == old(notifyManager.State())
      ensures analyzed.Analyzed? && CheckSpec(ruleChecker.rules, AsMap(analyzed.items), matcher).RuleKeyError? ==>
        r == FailureResult(KeyErrorText(ruleChecker.rules)) && status == old(status) && log == old(log) &&
        monitoring == old(monitoring) && notifyManager.State() == old(notifyManager.State())
      ensures analyzed.Analyzed? && CheckSpec(ruleChecker.rules, AsMap(analyzed.items), matcher).Checked? ==>
        var analysis := AsMap(analyzed.items);
        var chk := CheckSpec(ruleChecker.rules, analysis, matcher).result;
        var d := Decide(notifyManager.Config(), old(notifyManager.State()), Cycle(chk.isValid, now));
        r == d.result && notifyManager.State() == d.next &&
        log == old(log) + [Saved(Record(imagePath, chk.isValid, chk.failedFields, r.shouldNotify, analysis))] +
          (if r.shouldNotify
           then NoticeEvents(NotificationText(d.next.failures, analyzed.items, clock), ConvertLevel(r.level), imagePath, textSend)
           else []) &&
        status.snapshotsProcessed == old(status.snapshotsProcessed) + 1 &&
        status.consecutiveFailures == d.next.failures && status.lastNotifyResult == Some(r) &&
        status.notificationsSent == old(status.notificationsSent) + (if r.shouldNotify && Counted(textSend, imageSend) then 1 else 0) &&
        monitoring == (old(monitoring) && !r.shouldStop)
    {
      if analyzed.AnalyzeRaised? {
        return FailureResult(analyzed.msg), false;
      }
      var checked := ruleChecker.Check(AsMap(analyzed.items), matcher);
      if checked.RuleKeyError? {
        return FailureResult(KeyErrorText(ruleChecker.rules)), false;
      }
      r, hangs := AfterCheck(imagePath, checked.result, analyzed.items, now, clock, textSend, imageSend, fromWorker, open);
    }

    /** `start_time_scheduler`: refused when the scheduler is disabled,
        already running, or either time is missing. */
    method StartTimeScheduler() returns (ok: bool)
      requires Valid()
      modifies this`timeSchedulerRunning, this`status, this`schedulerThread
      ensures Valid()
      ensures ok <==> SchedulerEnabled(config.data) && !old(timeSchedulerRunning)
      ensures timeSchedulerRunning == (old(timeSchedulerRunning) || ok)
      ensures schedulerThread == (old(schedulerThread) || ok)
      ensures status == old(status).(isTimeSchedulerRunning := timeSchedulerRunning)
    {
      if !Truthy(config.data.enableTimeScheduler) {
        return false;
      }
      if timeSchedulerRunning {
        return false;
      }
      if !Truthy(config.data.autoStartTime) || !Truthy(config.data.autoStopTime) {
        return false;
      }
      timeSchedulerRunning := true;
      status := status.(isTimeSchedulerRunning := true);
      schedulerThread := true;
      return true;
    }

    /** `stop_time_scheduler`: refused when not running; otherwise clear
        both flags and join the scheduler thread. */
    method StopTimeScheduler() returns (ok: bool)
      requires Valid()
      modifies this`timeSchedulerRunning, this`status, this`schedulerThread
      ensures Valid()
      ensures ok <==> old(timeSchedulerRunning)
      ensures !timeSchedulerRunning
      ensures schedulerThread == (old(schedulerThread) && !ok)
      ensures status == old(status).(isTimeSchedulerRunning := false)
    {
      if !timeSchedulerRunning {
        return false;
      }
      timeSchedulerRunning := false;
      status := status.(isTimeSchedulerRunning := false);
      schedulerThread := false;
      return true;
    }

    /** One pass of `_time_scheduler_loop`'s body: tick, then start or stop
        monitoring as the tick says; a stop that never returns blocks the
        scheduler thread (`hangs`). */
    method SchedulerTick(startMin: int, stopMin: int, sched: SchedState, now: DateTime, open: CameraDevice.OpenOutcome)
      returns (next: SchedState, hangs: bool)
      requires Valid()
      modifies this`monitoring, this`status, this`monitorThread
      modifies notifyManager`consecutiveFailures, notifyManager`lastNotifyTime, CameraObjects()
      ensures Valid()
      ensures RunState(next, monitoring) == Schedule.Step(startMin, stopMin, RunState(sched, old(monitoring)), Reading(now, None))
      ensures hangs <==> Tick(startMin, stopMin, sched, now, old(monitoring)).stop && old(CameraStuck())
      ensures hangs ==> camera.locked
    {
      var t := Tick(startMin, stopMin, sched, now, monitoring);
      if t.start {
        var _ := StartMonitor(now);
      }
      hangs := false;
      if t.stop {
        var _, h := StopMonitor(now, false, open);
        hangs := h;
      }
      next := t.next;
    }

    /** The ticks of `_time_scheduler_loop` over the readings of the clock
        for a parsed window, until a stop blocks the thread. */
    method RunTicks(startMin: int, stopMin: int, clocks: seq<DateTime>, open: CameraDevice.OpenOutcome)
      returns (ticks: nat, hangs: bool)
      requires Valid()
      modifies this`monitoring, this`status, this`monitorThread
      modifies notifyManager`consecutiveFailures, notifyManager`lastNotifyTime, CameraObjects()
      ensures Valid()
      ensures Ticked(startMin, stopMin, old(monitoring), clocks, ticks, hangs, monitoring)
      ensures hangs ==> camera != null && camera.locked
    {
      ghost var init := RunState(NoChecks, monitoring);
      var readings := Quiet(clocks);
      var sched := NoChecks;
      ticks, hangs := 0, false;
      assert readings[..0] == [];
      while ticks < |clocks| && !hangs
        invariant 0 <= ticks <= |clocks| && Valid()
        invariant RunState(sched, monitoring) == Run(startMin, stopMin, init, readings[..ticks])
        invariant hangs ==>
          0 < ticks && camera != null && camera.locked && TickAt(startMin, stopMin, init, readings, ticks - 1).stop
      {
        ghost var prev := RunState(sched, monitoring);
        sched, hangs := SchedulerTick(startMin, stopMin, sched, clocks[ticks], open);
        RunSnoc(startMin, stopMin, init, readings, ticks);
        ticks := ticks + 1;
      }
    }

    /** `_time_scheduler_loop`, one tick per reading of the clock: the
        window is parsed once at the start, and each tick starts or stops
        monitoring as `Tick` says. */
    method TimeSchedulerLoop(clocks: seq<DateTime>, open: CameraDevice.OpenOutcome) returns (ticks: nat, hangs: bool)
      requires Valid()
      modifies this`monitoring, this`status, this`monitorThread
      modifies notifyManager`consecutiveFailures, notifyManager`lastNotifyTime, CameraObjects()
      ensures Valid()
      ensures !(old(timeSchedulerRunning) && Window(old(config.data)).Some?) ==> monitoring == old(monitoring) && ticks == 0 && !hangs
      ensures old(timeSchedulerRunning) && Window(old(config.data)).Some? ==>
        var w := Window(old(config.data)).value;
        Ticked(w.0, w.1, old(monitoring), clocks, ticks, hangs, monitoring)
    {
      var w := Window(config.data);
      if !timeSchedulerRunning || w.None? {
        return 0, false;
      }
      ticks, hangs := RunTicks(w.value.0, w.value.1, clocks, open);
    }

    /** The rules step of `update_config`: store the new rules, then refuse
        them when one lacks a field or has a pattern that does not compile. */
    method ApplyRules(rulesArg: Value, compiles: string -> bool) returns (rejected: bool)
      modifies ruleChecker`rules
      ensures ruleChecker.rules == RulesOf(rulesArg)
      ensures rejected <==>
        exists i :: 0 <= i < |ruleChecker.rules| && !(HasFields(ruleChecker.rules[i]) && compiles(ruleChecker.rules[i]["regexp"]))
    {
      var bad := ruleChecker.UpdateRules(RulesOf(rulesArg), compiles);
      return bad.Some?;
    }

    /** The scheduler step of `update_config`: stop the scheduler when
        running, then start it when enabled with both times set. */
    method RestartScheduler()
      requires Valid()
      modifies this`timeSchedulerRunning, this`status, this`schedulerThread
      ensures Valid()
      ensures timeSchedulerRunning == SchedulerEnabled(config.data)
    {
      if timeSchedulerRunning {
        var _ := StopTimeScheduler();
      }
      if Truthy(config.data.enableTimeScheduler) {
        if Truthy(config.data.autoStartTime) && Truthy(config.data.autoStopTime) {
          var _ := StartTimeScheduler();
        }
      }
    }

    /** The notification step of `update_config`: all three arguments are
        converted before the manager is updated, so one that `int()` refuses
        raises with nothing changed. */
    method ApplyNotifyArgs(kwargs: seq<(string, Value)>) returns (raised: bool)
      modifies notifyManager`minNotifyInterval, notifyManager`maxNotifyInterval, notifyManager`consecutiveFailLimit
      ensures raised <==> NotifyUpdate(old(notifyManager.Config()), kwargs).None?
      ensures notifyManager.Config() ==
        if raised then old(notifyManager.Config()) else NotifyUpdate(old(notifyManager.Config()), kwargs).value
    {
      var minArg := NotifyArg(kwargs, "min_notify_interval");
      var maxArg := NotifyArg(kwargs, "max_notify_interval");
      var limitArg := NotifyArg(kwargs, "consecutive_fail_limit");
      if minArg.BadArg? || maxArg.BadArg? || limitArg.BadArg? {
        return true;
      }
      notifyManager.UpdateConfig(ArgValue(minArg), ArgValue(maxArg), ArgValue(limitArg));
      return false;
    }

    /** The steps of `update_config` after the settings were stored: the
        rules when given, the scheduler restart when a scheduler key was
        given, the notification settings when one of them was given. */
    method ApplyRest(kwargs: seq<(string, Value)>, compiles: string -> bool) returns (e: UpdateResult)
      requires Valid()
      modifies ruleChecker`rules, this`timeSchedulerRunning, this`status, this`schedulerThread
      modifies notifyManager`minNotifyInterval, notifyManager`maxNotifyInterval, notifyManager`consecutiveFailLimit
      ensures Valid() && e != ConfigRaised
      ensures ruleChecker.rules == if Lookup(kwargs, "rules").Some? then RulesOf(Lookup(kwargs, "rules").value) else old(ruleChecker.rules)
      ensures e == RulesRejected <==>
        Lookup(kwargs, "rules").Some? &&
        exists i :: 0 <= i < |ruleChecker.rules| && !(HasFields(ruleChecker.rules[i]) && compiles(ruleChecker.rules[i]["regexp"]))
      ensures e != RulesRejected && SchedulerKeySupplied(kwargs) ==> timeSchedulerRunning == SchedulerEnabled(config.data)
      ensures !(e != RulesRejected && SchedulerKeySupplied(kwargs)) ==> timeSchedulerRunning == old(timeSchedulerRunning)
      ensures e == NotifyArgRaised <==>
        e != RulesRejected && NotifyKeySupplied(kwargs) && NotifyUpdate(old(notifyManager.Config()), kwargs).None?
      ensures notifyManager.Config() ==
        if e == UpdateDone && NotifyKeySupplied(kwargs)
        then NotifyUpdate(old(notifyManager.Config()), kwargs).value
        else old(notifyManager.Config())
    {
      var rulesArg := Lookup(kwargs, "rules");
      if rulesArg.Some? {
        var rejected := ApplyRules(rulesArg.value, compiles);
        if rejected {
          return RulesRejected;
        }
      }
      if SchedulerKeySupplied(kwargs) {
        RestartScheduler();
      }
      if NotifyKeySupplied(kwargs) {
        var raised := ApplyNotifyArgs(kwargs);
        if raised {
          return NotifyArgRaised;
        }
      }
      return UpdateDone;
    }

    /** `update_config`: update the settings, then the rules when given,
        then restart the scheduler when a scheduler key was given, then the
        notification settings when one of them was given. An exception ends
        it with the earlier steps done. */
    method UpdateConfig(kwargs: seq<(string, Value)>, compiles: string -> bool) returns (e: UpdateResult)
      requires Valid()
      modifies config, ruleChecker`rules, this`timeSchedulerRunning, this`status, this`schedulerThread
      modifies notifyManager`minNotifyInterval, notifyManager`maxNotifyInterval, notifyManager`consecutiveFailLimit
      ensures Valid()
      ensures UpdateOutcome(config.data, config.shadowed, e == ConfigRaised) == UpdateSpec(old(config.data), old(config.shadowed), kwargs)
      // the rules are stored whenever given, even when they are then rejected
      ensures ruleChecker.rules ==
        if e != ConfigRaised && Lookup(kwargs, "rules").Some? then RulesOf(Lookup(kwargs, "rules").value) else old(ruleChecker.rules)
      ensures e == RulesRejected <==>
        e != ConfigRaised && Lookup(kwargs, "rules").Some? &&
        exists i :: 0 <= i < |ruleChecker.rules| && !(HasFields(ruleChecker.rules[i]) && compiles(ruleChecker.rules[i]["regexp"]))
      // the scheduler is restarted only when a scheduler key was given
      ensures (e == UpdateDone || e == NotifyArgRaised) && SchedulerKeySupplied(kwargs) ==>
        timeSchedulerRunning == SchedulerEnabled(config.data)
      ensures !((e == UpdateDone || e == NotifyArgRaised) && SchedulerKeySupplied(kwargs)) ==>
        timeSchedulerRunning == old(timeSchedulerRunning)
      // the notification settings change only when one was given and every given one converts
      ensures e == NotifyArgRaised <==>
        (e == UpdateDone || e == NotifyArgRaised) && NotifyKeySupplied(kwargs) &&
        NotifyUpdate(old(notifyManager.Config()), kwargs).None?
      ensures notifyManager.Config() ==
        if e == UpdateDone && NotifyKeySupplied(kwargs)
        then NotifyUpdate(old(notifyManager.Config()), kwargs).value
        else old(notifyManager.Config())
    {
      var failed := config.Update(kwargs);
      if failed {
        return ConfigRaised;
      }
      e := ApplyRest(kwargs, compiles);
    }

    /** `shutdown`: stop monitoring, then the scheduler, each only when
        running; a stop that never returns leaves the scheduler running. */
    method Shutdown(now: DateTime, open: CameraDevice.OpenOutcome) returns (hangs: bool)
      requires Valid()
      modifies this`monitoring, this`status, this`monitorThread, this`timeSchedulerRunning, this`schedulerThread, CameraObjects()
      ensures Valid()
      ensures hangs <==> old(monitoring) && old(CameraStuck())
      ensures !monitoring
      ensures timeSchedulerRunning == (hangs && old(timeSchedulerRunning))
      ensures old(monitoring) ==> status.stopTime == Some(now)
      ensures !old(monitoring) ==> status.stopTime == old(status.stopTime)
    {
      hangs := false;
      if monitoring {
        var _, h := StopMonitor(now, false, open);
        if h {
          return true;
        }
      }
      if timeSchedulerRunning {
        var _ := StopTimeScheduler();
      }
    }
  }
}
