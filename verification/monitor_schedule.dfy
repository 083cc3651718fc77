/** The daily time scheduler of the monitoring service
    (src/monitor/simple_monitor_service.py, `_time_scheduler_loop`): once a
    minute it compares the wall clock with the configured "HH:MM" window,
    starts monitoring at most once a day inside the window, and stops it
    when the clock crosses the stop minute. One tick is a pure step over the
    loop's three local variables and the monitoring flag. */
module Schedule {
  import opened Common

  /** A calendar date, `datetime.date()`. */
  datatype Date = Date(year: nat, month: nat, day: nat)

  function DateOf(t: DateTime): Date
  {
    Date(t.year, t.month, t.day)
  }

  /** Minutes since midnight of a clock reading. */
  function Minutes(t: DateTime): int
  {
    t.hour * 60 + t.minute
  }

  /** The loop's locals `last_check_date`, `last_check_minute` and
      `last_auto_start_date`. */
  datatype SchedState = SchedState(lastCheckDate: Option<Date>, lastCheckMinute: Option<int>, lastAutoStartDate: Option<Date>)

  const NoChecks := SchedState(None, None, None)

  /** What one tick asks for, and the locals afterwards. */
  datatype TickOutcome = TickOutcome(start: bool, stop: bool, next: SchedState)

  /** "HH:MM" as minutes since midnight: `map(int, s.split(':'))` unpacked
      into two numbers; None is the exception (not a string, not two parts,
      or a part `int()` refuses). Hours and minutes are not range-checked. */
  function ParseHHMM(v: Value): (r: Option<int>)
    ensures r.Some? ==> v.VStr? && |Split(v.s, ':')| == 2
  {
    if !v.VStr? then None
    else
      var parts := Split(v.s, ':');
      if |parts| != 2 then None
      else
        var hours, minutes := ParseInt(parts[0]), ParseInt(parts[1]);
        if hours.Some? && minutes.Some? then Some(hours.value * 60 + minutes.value) else None
  }

  /** Splitting at the only separator gives the two sides. */
  lemma {:induction false} SplitOnce(a: string, b: string, sep: char)
    requires Lacks(a, sep) && Lacks(b, sep)
    ensures Split(a + [sep] + b, sep) == [a, b]
  {
    var s := a + [sep] + b;
    if a == [] {
      assert s == [sep] + b && s[1..] == b;
      SplitNone(b, sep);
    } else {
      assert s[0] == a[0] && s[0] != sep;
      assert s[1..] == a[1..] + [sep] + b;
      assert Lacks(a[1..], sep) by {
        forall j | 0 <= j < |a[1..]| ensures a[1..][j] != sep { assert a[1..][j] == a[j + 1]; }
      }
      SplitOnce(a[1..], b, sep);
      assert [a[0]] + a[1..] == a;
    }
  }

  lemma {:induction false} SplitNone(s: string, sep: char)
    requires Lacks(s, sep)
    ensures Split(s, sep) == [s]
  {
    if s != [] {
      assert s[0] != sep;
      assert Lacks(s[1..], sep) by {
        forall j | 0 <= j < |s[1..]| ensures s[1..][j] != sep { assert s[1..][j] == s[j + 1]; }
      }
      SplitNone(s[1..], sep);
      assert [s[0]] + s[1..] == s;
    }
  }

  /** `int()` of a string of digits is its decimal value. */
  lemma ParseDigits(s: string)
    requires s != [] && AllDigits(s)
    ensures ParseInt(s) == Some(DigitsValue(s) as int)
  {
    forall i | 0 <= i < |s| ensures !IsSpace(s[i]) {
      assert IsDigit(s[i]);
    }
    TrimNoSpace(s);
    var t := Trim(s);
    assert t == s && IsDigit(t[0]);
    assert !(t[0] == '-' || t[0] == '+');
  }

  /** A zero-padded two-digit field has the value of its number. */
  lemma ZeroPadValue(n: nat)
    requires n < 100
    ensures DigitsValue(ZeroPad(n, 2)) == n
  {
    DigitsOfNat(n);
    if n < 10 {
      var d := NatToString(n);
      assert ZeroPad(n, 2) == "0" + d;
      assert |d| == 1;
      assert ("0" + d)[..1] == "0";
    } else {
      NatToStringShort(n, 2);
      assert ZeroPad(n, 2) == NatToString(n);
    }
  }

  /** Two runs of digits around a colon read as hours and minutes. */
  lemma ParseHHMMDigits(a: string, b: string, h: nat, m: nat)
    requires a != [] && b != [] && AllDigits(a) && AllDigits(b)
    requires DigitsValue(a) == h && DigitsValue(b) == m
    ensures ParseHHMM(VStr(a + ":" + b)) == Some(h * 60 + m)
  {
    assert Lacks(a, ':') && Lacks(b, ':') by {
      assert forall i :: 0 <= i < |a| ==> IsDigit(a[i]);
      assert forall i :: 0 <= i < |b| ==> IsDigit(b[i]);
    }
    var text := a + ":" + b;
    assert text == a + [':'] + b;
    SplitOnce(a, b, ':');
    ParseDigits(a);
    ParseDigits(b);
    ParseHHMMParts(text, a, b, h, m);
  }

  /** A time whose two parts parse reads as hours times 60 plus minutes. */
  lemma ParseHHMMParts(s: string, a: string, b: string, h: int, m: int)
    requires Split(s, ':') == [a, b] && ParseInt(a) == Some(h) && ParseInt(b) == Some(m)
    ensures ParseHHMM(VStr(s)) == Some(h * 60 + m)
  {
  }

  /** Reading back a zero-padded "HH:MM" gives its minutes since midnight. */
  lemma ParseHHMMRoundTrip(h: nat, m: nat)
    requires h < 100 && m < 100
    ensures ParseHHMM(VStr(ZeroPad(h, 2) + ":" + ZeroPad(m, 2))) == Some(h * 60 + m)
  {
    ZeroPadValue(h);
    ZeroPadValue(m);
    ParseHHMMDigits(ZeroPad(h, 2), ZeroPad(m, 2), h, m);
  }

  /** One pass of the loop body at clock `now`, with `monitoring` the flag
      before it: a new date resets the locals; start when idle, inside
      [start, stop) and not yet auto-started today; stop when monitoring
      (possibly just started) and the previous check was before the stop
      minute and this one is not. */
  function Tick(startMin: int, stopMin: int, s: SchedState, now: DateTime, monitoring: bool): (t: TickOutcome)
    ensures t.start <==>
      !monitoring && startMin <= Minutes(now) < stopMin &&
      !(s.lastCheckDate == Some(DateOf(now)) && s.lastAutoStartDate == Some(DateOf(now)))
    ensures t.stop <==>
      (monitoring || t.start) && s.lastCheckDate == Some(DateOf(now)) &&
      s.lastCheckMinute.Some? && s.lastCheckMinute.value < stopMin <= Minutes(now)
    // never both, never a start when the window is empty, never a stop on the first tick of a day
    ensures !(t.start && t.stop)
    ensures startMin >= stopMin ==> !t.start
    ensures s.lastCheckDate != Some(DateOf(now)) ==> !t.stop
    // the date and minute are recorded every tick; a start marks today
    ensures t.next.lastCheckDate == Some(DateOf(now)) && t.next.lastCheckMinute == Some(Minutes(now))
    ensures t.start ==> t.next.lastAutoStartDate == Some(DateOf(now))
    ensures !t.start ==>
      t.next.lastAutoStartDate == (if s.lastCheckDate == Some(DateOf(now)) then s.lastAutoStartDate else None)
  {
    var today := DateOf(now);
    var cur := Minutes(now);
    var s' := if s.lastCheckDate.None? || s.lastCheckDate != Some(today) then SchedState(Some(today), None, None) else s;
    var inWindow := startMin <= cur < stopMin;
    var start := !monitoring && inWindow && (s'.lastAutoStartDate.None? || s'.lastAutoStartDate != Some(today));
    var autoStart := if start then Some(today) else s'.lastAutoStartDate;
    var monitoringNow := monitoring || start;
    var stop := monitoringNow && s'.lastCheckMinute.Some? && s'.lastCheckMinute.value < stopMin && cur >= stopMin;
    TickOutcome(start, stop, SchedState(Some(today), Some(cur), autoStart))
  }

  /** The loop's locals together with the monitoring flag. */
  datatype RunState = RunState(sched: SchedState, monitoring: bool)

  /** One wake-up of the scheduler thread: the clock it reads, and what
      other threads did to the monitoring flag since the previous wake-up —
      None when nothing, Some(false) when they stopped monitoring (the web
      interface, or the monitor thread after too many failures), Some(true)
      when they started it. */
  datatype Reading = Reading(now: DateTime, external: Option<bool>)

  /** The flag the tick sees. */
  function Seen(r: RunState, reading: Reading): bool
  {
    if reading.external.Some? then reading.external.value else r.monitoring
  }

  /** One tick and what `start_monitor`/`stop_monitor` do to the flag. */
  function Step(startMin: int, stopMin: int, r: RunState, reading: Reading): (r': RunState)
    ensures r'.sched == Tick(startMin, stopMin, r.sched, reading.now, Seen(r, reading)).next
  {
    var monitoring := Seen(r, reading);
    var t := Tick(startMin, stopMin, r.sched, reading.now, monitoring);
    RunState(t.next, if t.stop then false else if t.start then true else monitoring)
  }

  /** The state after each of `readings` in turn. */
  function Run(startMin: int, stopMin: int, init: RunState, readings: seq<Reading>): RunState
    decreases |readings|
  {
    if readings == [] then init
    else Step(startMin, stopMin, Run(startMin, stopMin, init, readings[..|readings| - 1]), readings[|readings| - 1])
  }

  /** Readings of the clock with no other thread touching the flag. */
  function Quiet(clocks: seq<DateTime>): (rs: seq<Reading>)
    ensures |rs| == |clocks| && forall i :: 0 <= i < |clocks| ==> rs[i] == Reading(clocks[i], None)
  {
    seq(|clocks|, i requires 0 <= i < |clocks| => Reading(clocks[i], None))
  }

  /** One more reading is one more step. */
  lemma RunSnoc(startMin: int, stopMin: int, init: RunState, readings: seq<Reading>, i: nat)
    requires i < |readings|
    ensures Run(startMin, stopMin, init, readings[..i + 1]) ==
      Step(startMin, stopMin, Run(startMin, stopMin, init, readings[..i]), readings[i])
  {
    assert readings[..i + 1][..i] == readings[..i];
  }

  /** What the tick at `readings[i]` asks for. */
  function TickAt(startMin: int, stopMin: int, init: RunState, readings: seq<Reading>, i: nat): TickOutcome
    requires i < |readings|
  {
    var r := Run(startMin, stopMin, init, readings[..i]);
    Tick(startMin, stopMin, r.sched, readings[i].now, Seen(r, readings[i]))
  }

  predicate SameDay(readings: seq<Reading>)
  {
    forall k :: 0 <= k < |readings| ==> DateOf(readings[k].now) == DateOf(readings[0].now)
  }

  /** After `j` ticks the locals hold the last tick's date and minute. */
  lemma RunRecordsLast(startMin: int, stopMin: int, init: RunState, readings: seq<Reading>, j: nat)
    requires 1 <= j <= |readings|
    ensures Run(startMin, stopMin, init, readings[..j]).sched.lastCheckDate == Some(DateOf(readings[j - 1].now))
    ensures Run(startMin, stopMin, init, readings[..j]).sched.lastCheckMinute == Some(Minutes(readings[j - 1].now))
  {
    assert readings[..j][..j - 1] == readings[..j - 1];
  }

  /** Once the scheduler has started monitoring on a day, today's marker
      stays set for the rest of that day, whatever other threads do to the
      flag. */
  lemma {:induction false} MarkerKept(startMin: int, stopMin: int, init: RunState, readings: seq<Reading>, i: nat, j: nat)
    requires SameDay(readings) && i < j <= |readings|
    requires TickAt(startMin, stopMin, init, readings, i).start
    ensures Run(startMin, stopMin, init, readings[..j]).sched.lastCheckDate == Some(DateOf(readings[0].now))
    ensures Run(startMin, stopMin, init, readings[..j]).sched.lastAutoStartDate == Some(DateOf(readings[0].now))
    decreases j
  {
    var d := DateOf(readings[0].now);
    assert readings[..j][..j - 1] == readings[..j - 1];
    assert DateOf(readings[j - 1].now) == d;
    if j == i + 1 {
      assert readings[..j][j - 1] == readings[i];
    } else {
      MarkerKept(startMin, stopMin, init, readings, i, j - 1);
    }
  }

  /** At most one automatic start per day, even when monitoring is stopped
      in between (from the web interface, or after too many failures). */
  lemma OneAutoStartPerDay(startMin: int, stopMin: int, init: RunState, readings: seq<Reading>, i: nat, j: nat)
    requires SameDay(readings) && i < j < |readings|
    requires TickAt(startMin, stopMin, init, readings, i).start
    ensures !TickAt(startMin, stopMin, init, readings, j).start
  {
    MarkerKept(startMin, stopMin, init, readings, i, j);
    assert DateOf(readings[j].now) == DateOf(readings[0].now);
  }

  /** The stop is edge-triggered: after the scheduler has stopped monitoring
      it does not stop it again while the clock does not go back, even when
      another thread restarts monitoring. */
  lemma OneAutoStop(startMin: int, stopMin: int, init: RunState, readings: seq<Reading>, i: nat, j: nat)
    requires forall k, l :: 0 <= k <= l < |readings| ==> Minutes(readings[k].now) <= Minutes(readings[l].now)
    requires i < j < |readings|
    requires TickAt(startMin, stopMin, init, readings, i).stop
    ensures !TickAt(startMin, stopMin, init, readings, j).stop
  {
    RunRecordsLast(startMin, stopMin, init, readings, j);
    assert Minutes(readings[i].now) <= Minutes(readings[j - 1].now);
  }
}
