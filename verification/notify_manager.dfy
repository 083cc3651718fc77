/** The notification throttle of the monitoring service
    (src/monitor/notify_manager.py): a two-field state machine over the
    number of consecutive failed checks and the time of the last
    notification, deciding each cycle whether to notify, whether to stop the
    service, and at which level. Times are whole seconds; the intervals are
    configured in minutes. */
module Notify {
  import opened Common

  datatype NotifyLevel = Info | Warning | Danger

  datatype NotifyResult = NotifyResult(shouldNotify: bool, shouldStop: bool, level: NotifyLevel, reason: string)

  /** The configuration: both intervals in minutes, and the failure limit. */
  datatype NotifyConfig = NotifyConfig(minInterval: int, maxInterval: int, failLimit: int)

  /** The mutable part: `consecutive_failures` and `last_notify_time`. */
  datatype NotifyState = NotifyState(failures: int, lastNotify: Option<int>)

  datatype Decision = Decision(result: NotifyResult, next: NotifyState)

  /** One cycle's input: whether the check passed, and the current time. */
  datatype Cycle = Cycle(isValid: bool, now: int)

  const Fresh := NotifyState(0, None)

  /** `timedelta.seconds` of a whole number of seconds: the seconds part,
      always in [0, 86400), also for a negative timedelta. */
  function SecondsPart(elapsed: int): (s: int)
    ensures 0 <= s < 86400
    ensures 0 <= elapsed < 86400 ==> s == elapsed
  {
    elapsed % 86400
  }

  /** `should_notify_stop`: the result and the next state, as a function of
      the configuration, the state on entry, the check result and the clock. */
  function Decide(cfg: NotifyConfig, s: NotifyState, c: Cycle): (d: Decision)
    // the stop check comes first and changes nothing
    ensures d.result.shouldStop <==> s.failures >= cfg.failLimit
    ensures d.result.shouldStop ==> !d.result.shouldNotify && d.result.level == Danger && d.next == s
    // past it, a pass resets the counter and a failure adds exactly one
    ensures !d.result.shouldStop ==> d.next.failures == (if c.isValid then 0 else s.failures + 1)
    // the first cycle always notifies, at WARNING exactly when the check failed
    ensures !d.result.shouldStop && s.lastNotify.None? ==>
      d.result.shouldNotify && d.result.level == (if c.isValid then Info else Warning)
    // too soon after the last notification: quiet, even when the check failed
    ensures !d.result.shouldStop && s.lastNotify.Some? && c.now - s.lastNotify.value < cfg.minInterval * 60 ==>
      !d.result.shouldNotify && d.result.level == Info
    // too long since the last notification: forced, whatever the check says
    ensures (!d.result.shouldStop && s.lastNotify.Some? &&
             c.now - s.lastNotify.value >= cfg.minInterval * 60 && c.now - s.lastNotify.value > cfg.maxInterval * 60) ==>
      d.result.shouldNotify && d.result.level == Info
    // in between: notify at WARNING exactly when the check failed
    ensures !d.result.shouldStop && s.lastNotify.Some? && cfg.minInterval * 60 <= c.now - s.lastNotify.value <= cfg.maxInterval * 60 ==>
      d.result.shouldNotify == !c.isValid && d.result.level == (if c.isValid then Info else Warning)
    // the last-notification time moves to now exactly when a notification goes out
    ensures d.result.shouldNotify ==> d.next.lastNotify == Some(c.now)
    ensures !d.result.shouldNotify ==> d.next.lastNotify == s.lastNotify
  {
    if s.failures >= cfg.failLimit then
      Decision(NotifyResult(false, true, Danger, "连续失败 " + IntToString(s.failures) + " 次，已达到限制"), s)
    else
      var failures := if c.isValid then 0 else s.failures + 1;
      match s.lastNotify
      case None =>
        Decision(NotifyResult(true, false, if c.isValid then Info else Warning,
                              if c.isValid then "首次检查" else "首次检查，发现问题"),
                 NotifyState(failures, Some(c.now)))
      case Some(last) =>
        var elapsed := c.now - last;
        if elapsed < cfg.minInterval * 60 then
          Decision(NotifyResult(false, false, Info, "距离上次通知仅 " + IntToString(SecondsPart(elapsed)) + "s，小于最小间隔"),
                   NotifyState(failures, s.lastNotify))
        else if elapsed > cfg.maxInterval * 60 then
          Decision(NotifyResult(true, false, Info, "更新状态 - " + (if c.isValid then "正常" else "仍有问题")),
                   NotifyState(failures, Some(c.now)))
        else if !c.isValid then
          Decision(NotifyResult(true, false, Warning, "连续失败 " + IntToString(failures) + " 次"),
                   NotifyState(failures, Some(c.now)))
        else
          Decision(NotifyResult(false, false, Info, "状态正常"), NotifyState(failures, s.lastNotify))
  }

  /** The state after a sequence of cycles. */
  function Replay(cfg: NotifyConfig, s: NotifyState, cycles: seq<Cycle>): NotifyState
    decreases |cycles|
  {
    if cycles == [] then s else Replay(cfg, Decide(cfg, s, cycles[0]).next, cycles[1..])
  }

  /** The results of a sequence of cycles, one per cycle. */
  function Outcomes(cfg: NotifyConfig, s: NotifyState, cycles: seq<Cycle>): (rs: seq<NotifyResult>)
    ensures |rs| == |cycles|
    decreases |cycles|
  {
    if cycles == [] then [] else [Decide(cfg, s, cycles[0]).result] + Outcomes(cfg, Decide(cfg, s, cycles[0]).next, cycles[1..])
  }

  predicate AllFailed(cycles: seq<Cycle>)
  {
    forall i :: 0 <= i < |cycles| ==> !cycles[i].isValid
  }

  /** Failed cycles below the limit never stop the service and each adds one
      to the counter. */
  lemma {:induction false} FailedCyclesCount(cfg: NotifyConfig, s: NotifyState, cycles: seq<Cycle>)
    requires AllFailed(cycles)
    requires s.failures + |cycles| <= cfg.failLimit
    ensures Replay(cfg, s, cycles).failures == s.failures + |cycles|
    ensures forall i :: 0 <= i < |cycles| ==> !Outcomes(cfg, s, cycles)[i].shouldStop
    decreases |cycles|
  {
    if cycles != [] {
      var d := Decide(cfg, s, cycles[0]);
      FailedCyclesCount(cfg, d.next, cycles[1..]);
      assert Outcomes(cfg, s, cycles) == [d.result] + Outcomes(cfg, d.next, cycles[1..]);
    }
  }

  /** Once the counter has reached the limit, every cycle stops and nothing
      changes until a reset. */
  lemma {:induction false} StopIsSticky(cfg: NotifyConfig, s: NotifyState, cycles: seq<Cycle>)
    requires s.failures >= cfg.failLimit
    ensures Replay(cfg, s, cycles) == s
    ensures forall i :: 0 <= i < |cycles| ==> Outcomes(cfg, s, cycles)[i].shouldStop && !Outcomes(cfg, s, cycles)[i].shouldNotify
    decreases |cycles|
  {
    if cycles != [] {
      StopIsSticky(cfg, s, cycles[1..]);
      assert Outcomes(cfg, s, cycles) == [Decide(cfg, s, cycles[0]).result] + Outcomes(cfg, s, cycles[1..]);
    }
  }

  /** The off-by-one of the stop rule: after a reset with limit L, L failed
      cycles in a row do not stop the service; the cycle after them stops it
      whatever its own result, and so does every cycle after that. */
  lemma StopAfterLimitPlusOne(cfg: NotifyConfig, failed: seq<Cycle>, next: Cycle, later: seq<Cycle>)
    requires AllFailed(failed) && |failed| == cfg.failLimit
    ensures forall i :: 0 <= i < |failed| ==> !Outcomes(cfg, Fresh, failed)[i].shouldStop
    ensures Decide(cfg, Replay(cfg, Fresh, failed), next).result.shouldStop
    ensures forall i :: 0 <= i < |later| ==> Outcomes(cfg, Replay(cfg, Fresh, failed), later)[i].shouldStop
  {
    FailedCyclesCount(cfg, Fresh, failed);
    StopIsSticky(cfg, Replay(cfg, Fresh, failed), later);
  }

  class NotifyManager {
    var minNotifyInterval: int
    var maxNotifyInterval: int
    var consecutiveFailLimit: int
    var lastNotifyTime: Option<int>
    var consecutiveFailures: int

    function Config(): NotifyConfig
      reads this
    {
      NotifyConfig(minNotifyInterval, maxNotifyInterval, consecutiveFailLimit)
    }

    function State(): NotifyState
      reads this
    {
      NotifyState(consecutiveFailures, lastNotifyTime)
    }

    constructor (minInterval: int, maxInterval: int, failLimit: int)
      ensures Config() == NotifyConfig(minInterval, maxInterval, failLimit)
      ensures State() == Fresh
    {
      minNotifyInterval := minInterval;
      maxNotifyInterval := maxInterval;
      consecutiveFailLimit := failLimit;
      lastNotifyTime := None;
      consecutiveFailures := 0;
    }

    /** One cycle: decide, and update the counter and the last-notification time. */
    method ShouldNotifyStop(isValid: bool, now: int) returns (r: NotifyResult)
      modifies this`consecutiveFailures, this`lastNotifyTime
      ensures Decision(r, State()) == Decide(Config(), old(State()), Cycle(isValid, now))
    {
      if consecutiveFailures >= consecutiveFailLimit {
        return NotifyResult(false, true, Danger, "连续失败 " + IntToString(consecutiveFailures) + " 次，已达到限制");
      }
      if isValid {
        consecutiveFailures := 0;
      } else {
        consecutiveFailures := consecutiveFailures + 1;
      }
      if lastNotifyTime.None? {
        lastNotifyTime := Some(now);
        var level := if !isValid then Warning else Info;
        return NotifyResult(true, false, level, if isValid then "首次检查" else "首次检查，发现问题");
      }
      var elapsed := now - lastNotifyTime.value;
      if elapsed < minNotifyInterval * 60 {
        return NotifyResult(false, false, Info, "距离上次通知仅 " + IntToString(SecondsPart(elapsed)) + "s，小于最小间隔");
      }
      if elapsed > maxNotifyInterval * 60 {
        lastNotifyTime := Some(now);
        return NotifyResult(true, false, Info, "更新状态 - " + (if isValid then "正常" else "仍有问题"));
      }
      if !isValid {
        lastNotifyTime := Some(now);
        return NotifyResult(true, false, Warning, "连续失败 " + IntToString(consecutiveFailures) + " 次");
      }
      return NotifyResult(false, false, Info, "状态正常");
    }

    /** `reset`: used when the service restarts. */
    method Reset()
      modifies this`consecutiveFailures, this`lastNotifyTime
      ensures State() == Fresh
    {
      consecutiveFailures := 0;
      lastNotifyTime := None;
    }

    /** `update_config`: an argument left out (None) keeps its setting. */
    method UpdateConfig(minInterval: Option<int>, maxInterval: Option<int>, failLimit: Option<int>)
      modifies this`minNotifyInterval, this`maxNotifyInterval, this`consecutiveFailLimit
      ensures minNotifyInterval == (if minInterval.Some? then minInterval.value else old(minNotifyInterval))
      ensures maxNotifyInterval == (if maxInterval.Some? then maxInterval.value else old(maxNotifyInterval))
      ensures consecutiveFailLimit == (if failLimit.Some? then failLimit.value else old(consecutiveFailLimit))
    {
      if minInterval.Some? {
        minNotifyInterval := minInterval.value;
      }
      if maxInterval.Some? {
        maxNotifyInterval := maxInterval.value;
      }
      if failLimit.Some? {
        consecutiveFailLimit := failLimit.value;
      }
    }
  }
}
