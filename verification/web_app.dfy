/** The Flask application of the newer monitoring service (web/app.py): the
    lazily built service graph, the preview window opened when monitoring
    starts, the image route's path guard, and the recipient list saved to
    the `.env` file. The module globals are the fields of one `WebApp`
    object. What the monitoring service's `start_monitor`/`stop_monitor`
    return is a parameter (None when they raise); the service itself is
    modelled in MonitorSvc. Times are whole seconds. */
module WebApp {
  import opened Common

  // ------------------------------------------------------------ image route

  /** The directory images are served from. */
  const CapturesDir := "data/captures/"

  /** `serve_image`: 400 without a path; 403 for a path containing ".." or
      outside the captures directory, whatever is on disk; 404 for a
      missing file; 200 when the file is sent, 500 when sending raises. */
  function ServeImage(path: Option<string>, fileExists: bool, sendOk: bool): (status: int)
    ensures status == 400 <==> path.None? || path.value == ""
    ensures status == 403 <==>
      path.Some? && path.value != "" && (Contains(path.value, "..") || !StartsWith(path.value, CapturesDir))
    ensures status == 200 ==>
      path.Some? && StartsWith(path.value, CapturesDir) && !Contains(path.value, "..") && fileExists
    ensures status in {200, 400, 403, 404, 500}
  {
    if path.None? || path.value == "" then 400
    else if Contains(path.value, "..") || !StartsWith(path.value, CapturesDir) then 403
    else if !fileExists then 404
    else if sendOk then 200
    else 500
  }

  /** The guard decides before the file system is consulted. */
  lemma GuardIgnoresDisk(path: string, e1: bool, s1: bool, e2: bool, s2: bool)
    requires path != "" && (Contains(path, "..") || !StartsWith(path, CapturesDir))
    ensures ServeImage(Some(path), e1, s1) == ServeImage(Some(path), e2, s2) == 403
  {
  }

  /** A parent-directory step is refused even under the captures
      directory. */
  lemma ParentStepRefused(rest: string)
    ensures ServeImage(Some(CapturesDir + "../" + rest), true, true) == 403
  {
    var p := CapturesDir + "../" + rest;
    assert p[|CapturesDir|..|CapturesDir| + 2] == "..";
    ContainsAt(p, "..", |CapturesDir|);
  }

  // -------------------------------------------------------- save_recipients

  const TouserPrefix := "WECHAT_TOUSER="

  /** The line written for the recipients. */
  function TouserLine(recipients: string): string
  {
    TouserPrefix + recipients + "\n"
  }

  /** The index of the first line starting with the prefix. */
  function FirstTouser(lines: seq<string>): (r: Option<nat>)
    ensures r.Some? ==>
      r.value < |lines| && StartsWith(lines[r.value], TouserPrefix) &&
      forall j :: 0 <= j < r.value ==> !StartsWith(lines[j], TouserPrefix)
    ensures r.None? ==> forall j :: 0 <= j < |lines| ==> !StartsWith(lines[j], TouserPrefix)
  {
    if lines == [] then None
    else if StartsWith(lines[0], TouserPrefix) then Some(0)
    else match FirstTouser(lines[1..])
      case Some(i) => Some(i + 1)
      case None => None
  }

  /** The file text of a list of lines, as `writelines` writes it. */
  function Concat(lines: seq<string>): string
  {
    if lines == [] then "" else Concat(lines[..|lines| - 1]) + lines[|lines| - 1]
  }

  lemma ConcatCons(x: string, lines: seq<string>)
    ensures Concat([x] + lines) == x + Concat(lines)
    decreases |lines|
  {
    if lines != [] {
      var init := lines[..|lines| - 1];
      assert ([x] + lines)[..|lines|] == [x] + init;
      ConcatCons(x, init);
    }
  }

  /** `readlines()` on the file text: the text is cut after each newline,
      and a last piece without one is a line of its own. */
  function ReadLines(text: string): (lines: seq<string>)
    ensures (lines == []) == (text == "")
    ensures forall i :: 0 <= i < |lines| ==> lines[i] != ""
    ensures forall i :: 0 <= i < |lines| - 1 ==> lines[i][|lines[i]| - 1] == '\n'
    ensures forall i :: 0 <= i < |lines| ==> Lacks(lines[i][..|lines[i]| - 1], '\n')
  {
    if text == "" then []
    else
      var rest := ReadLines(text[1..]);
      if text[0] == '\n' || rest == [] then [[text[0]]] + rest
      else
        assert ([text[0]] + rest[0])[..|rest[0]|] == [text[0]] + rest[0][..|rest[0]| - 1];
        [[text[0]] + rest[0]] + rest[1..]
  }

  /** Writing the lines read gives the text back. */
  lemma {:induction false} ConcatReadLines(text: string)
    ensures Concat(ReadLines(text)) == text
  {
    if text != "" {
      var rest := ReadLines(text[1..]);
      ConcatReadLines(text[1..]);
      if text[0] == '\n' || rest == [] {
        ConcatCons([text[0]], rest);
      } else {
        ConcatCons([text[0]] + rest[0], rest[1..]);
        ConcatCons(rest[0], rest[1..]);
        assert rest == [rest[0]] + rest[1..];
      }
    }
  }

  /** A text with no newline before its last character is one line. */
  lemma {:induction false} ReadLinesOneLine(s: string)
    requires s != "" && Lacks(s[..|s| - 1], '\n')
    ensures ReadLines(s) == [s]
  {
    if |s| == 1 {
      assert ReadLines(s[1..]) == [];
      assert [s[0]] == s;
    } else {
      assert s[1..][..|s| - 2] == s[1..|s| - 1];
      ReadLinesOneLine(s[1..]);
      assert s[0] == s[..|s| - 1][0];
      assert [s[0]] + s[1..] == s;
    }
  }

  /** A line ending in a newline is read as a line of its own, whatever
      follows it. */
  lemma {:induction false} ReadLinesAfterLine(a: string, b: string)
    requires a != "" && a[|a| - 1] == '\n' && Lacks(a[..|a| - 1], '\n')
    ensures ReadLines(a + b) == [a] + ReadLines(b)
  {
    assert (a + b)[0] == a[0];
    assert (a + b)[1..] == a[1..] + b;
    if |a| == 1 {
      assert a[1..] + b == b;
      assert [a[0]] == a;
    } else {
      assert a[1..][..|a| - 2] == a[1..|a| - 1];
      ReadLinesAfterLine(a[1..], b);
      assert a[0] == a[..|a| - 1][0];
      assert [a[0]] + a[1..] == a;
    }
  }

  /** Lines as `readlines()` returns them: non-empty, each but the last
      ending in its only newline. */
  predicate WellFormedLines(lines: seq<string>)
  {
    && (forall i :: 0 <= i < |lines| ==> lines[i] != "" && Lacks(lines[i][..|lines[i]| - 1], '\n'))
    && (forall i :: 0 <= i < |lines| - 1 ==> lines[i][|lines[i]| - 1] == '\n')
  }

  /** Reading back the text of well-formed lines gives the same lines. */
  lemma {:induction false} ReadLinesConcat(lines: seq<string>)
    requires WellFormedLines(lines)
    ensures ReadLines(Concat(lines)) == lines
    decreases |lines|
  {
    if lines != [] {
      ConcatCons(lines[0], lines[1..]);
      assert [lines[0]] + lines[1..] == lines;
      if |lines| == 1 {
        assert lines[1..] == [];
        assert Concat(lines) == lines[0];
        ReadLinesOneLine(lines[0]);
      } else {
        assert WellFormedLines(lines[1..]) by {
          forall i | 0 <= i < |lines[1..]|
            ensures lines[1..][i] == lines[i + 1]
          {
          }
        }
        ReadLinesAfterLine(lines[0], Concat(lines[1..]));
        ReadLinesConcat(lines[1..]);
      }
    }
  }

  /** A line of `text` starts at `offset`. */
  predicate StartsLine(text: string, offset: nat)
    requires offset <= |text|
  {
    offset == 0 || text[offset - 1] == '\n'
  }

  /** The lines as the handler writes them: the first line starting with
      the prefix is replaced, and otherwise the new line is appended to
      the lines read, as they are. */
  function RewrittenAsWritten(lines: seq<string>, recipients: string): (out: seq<string>)
    ensures FirstTouser(lines).Some? ==> out == lines[FirstTouser(lines).value := TouserLine(recipients)]
    ensures FirstTouser(lines).None? ==> out == lines + [TouserLine(recipients)]
  {
    match FirstTouser(lines)
    case Some(i) => lines[i := TouserLine(recipients)]
    case None => lines + [TouserLine(recipients)]
  }

  /** A `.env` whose last line has no newline and no recipient line: the
      appended line is glued to the last one, so the file sets no
      WECHAT_TOUSER at all. */
  lemma AppendGluedToLastLine()
    ensures var out := RewrittenAsWritten(["A=1"], "bob");
      var text := Concat(out);
      && out == ["A=1", TouserLine("bob")]
      && text == "A=1" + TouserLine("bob")
      && !StartsLine(text, |"A=1"|)
  {
    var lines := ["A=1"];
    assert !StartsWith(lines[0], TouserPrefix);
    assert FirstTouser(lines[1..]) == None;
    var out := RewrittenAsWritten(lines, "bob");
    assert out[..1] == ["A=1"];
    assert Concat(out[..1]) == "A=1" by {
      assert out[..1][..0] == [];
    }
  }

  /** After a save glued the recipient line to a last line without a
      newline, the file read back has no line starting with the prefix, so
      the next save appends once more instead of replacing. */
  lemma SecondSaveAfterGlueAppendsAgain()
    ensures var first := Concat(RewrittenAsWritten(ReadLines("A=1"), "bob"));
      && first == "A=1" + TouserLine("bob")
      && Concat(RewrittenAsWritten(ReadLines(first), "alice")) == first + TouserLine("alice")
  {
    ReadLinesOneLine("A=1");
    AppendGluedToLastLine();
    var first := "A=1" + TouserLine("bob");
    assert Lacks(first[..|first| - 1], '\n');
    ReadLinesOneLine(first);
    assert !StartsWith(first, TouserPrefix) by {
      assert first[0] != TouserPrefix[0];
    }
    assert FirstTouser([first][1..]) == None;
    ConcatSnoc([first], TouserLine("alice"));
    assert Concat([first]) == first by {
      assert [first][..0] == [];
    }
  }

  /** The lines read, with a newline added to a last line that lacks one. */
  function Terminated(lines: seq<string>): (out: seq<string>)
    ensures |out| == |lines| && (lines != [] ==> out[..|out| - 1] == lines[..|lines| - 1])
    ensures lines != [] ==> |out[|out| - 1]| > 0 && out[|out| - 1][|out[|out| - 1]| - 1] == '\n'
  {
    if lines == [] then []
    else
      var last := lines[|lines| - 1];
      if |last| > 0 && last[|last| - 1] == '\n' then lines
      else lines[..|lines| - 1] + [last + "\n"]
  }

  /** The rewrite that keeps the appended line a line of its own. */
  function Rewritten(lines: seq<string>, recipients: string): (out: seq<string>)
    ensures FirstTouser(lines).Some? ==> out == lines[FirstTouser(lines).value := TouserLine(recipients)]
    ensures FirstTouser(lines).None? ==> out == Terminated(lines) + [TouserLine(recipients)]
  {
    match FirstTouser(lines)
    case Some(i) => lines[i := TouserLine(recipients)]
    case None => Terminated(lines) + [TouserLine(recipients)]
  }

  lemma ConcatSnoc(lines: seq<string>, x: string)
    ensures Concat(lines + [x]) == Concat(lines) + x
  {
    assert (lines + [x])[..|lines|] == lines;
  }

  /** The text of lines whose last line ends in a newline ends in one. */
  lemma ConcatEndsWithNewline(lines: seq<string>)
    requires lines != [] && |lines[|lines| - 1]| > 0 && lines[|lines| - 1][|lines[|lines| - 1]| - 1] == '\n'
    ensures |Concat(lines)| > 0 && Concat(lines)[|Concat(lines)| - 1] == '\n'
  {
  }

  /** With the corrected rewrite, an appended recipient line always starts
      a line of the file, and holds the recipients. */
  lemma AppendedLineStartsLine(lines: seq<string>, recipients: string)
    requires FirstTouser(lines).None?
    ensures var text := Concat(Rewritten(lines, recipients));
      var offset := |Concat(Terminated(lines))|;
      && offset <= |text| && StartsLine(text, offset) && text[offset..] == TouserLine(recipients)
  {
    var kept := Terminated(lines);
    ConcatSnoc(kept, TouserLine(recipients));
    if lines != [] {
      ConcatEndsWithNewline(kept);
    }
  }

  /** As written, the appended line starts a line of its own exactly when
      the file text read was empty or ended with a newline. */
  lemma AppendAsWrittenStartsLineIff(lines: seq<string>, recipients: string)
    requires FirstTouser(lines).None?
    ensures var text := Concat(RewrittenAsWritten(lines, recipients));
      var read := Concat(lines);
      && |read| <= |text| && text[..|read|] == read && text[|read|..] == TouserLine(recipients)
      && (StartsLine(text, |read|) <==> read == "" || read[|read| - 1] == '\n')
  {
    ConcatSnoc(lines, TouserLine(recipients));
  }

  /** `save_recipients`'s request body: None when it is not JSON (the
      handler's `data.get` then raises). */
  datatype SaveOutcome = Saved(recipients: string) | Rejected400 | Raised500

  class WebApp {
    /** `monitor_service is not None`, and how often the services were built. */
    var servicesBuilt: bool
    var buildCount: nat
    /** The time scheduler was started by `init_services`. */
    var schedulerStarted: bool
    var previewActive: bool
    var previewStartTime: Option<int>
    var previewDuration: int
    /** The `.env` file's text (None when there is no file), the process's
        WECHAT_TOUSER ("" when unset, as `os.getenv` defaults it), and the
        recipient of the messenger last built. */
    var envText: Option<string>
    var envTouser: string
    var messengerRecipient: Option<string>

    constructor (envText: Option<string>, envTouser: string)
      ensures !servicesBuilt && buildCount == 0 && !schedulerStarted
      ensures !previewActive && previewStartTime.None? && previewDuration == 10
      ensures this.envText == envText && this.envTouser == envTouser && messengerRecipient.None?
    {
      servicesBuilt, buildCount, schedulerStarted := false, 0, false;
      previewActive, previewStartTime, previewDuration := false, None, 10;
      this.envText, this.envTouser := envText, envTouser;
      messengerRecipient := None;
    }

    /** `init_services`: build the services once; a later call returns the
        existing monitor service and changes nothing. The messenger is built
        for the process's WECHAT_TOUSER, and the time scheduler is started
        when its configuration enables it. */
    method InitServices(schedulerEnabled: bool)
      modifies this`servicesBuilt, this`buildCount, this`schedulerStarted, this`messengerRecipient
      ensures servicesBuilt
      ensures old(servicesBuilt) ==>
        buildCount == old(buildCount) && schedulerStarted == old(schedulerStarted) &&
        messengerRecipient == old(messengerRecipient)
      ensures !old(servicesBuilt) ==>
        buildCount == old(buildCount) + 1 && schedulerStarted == (old(schedulerStarted) || schedulerEnabled) &&
        messengerRecipient == Some(envTouser)
    {
      if servicesBuilt {
        return;
      }
      servicesBuilt := true;
      buildCount := buildCount + 1;
      messengerRecipient := Some(envTouser);
      if schedulerEnabled {
        schedulerStarted := true;
      }
    }

    /** `POST /api/monitor/start`: after a successful start, the preview is
        opened for `preview_duration` seconds when the preview is enabled
        and the duration is positive. A duration that is not a number
        raises in the comparison (500) after monitoring has started. */
    method StartMonitor(started: Option<bool>, enablePreview: Value, duration: Value, now: int)
      returns (status: int, reported: int)
      modifies this`previewActive, this`previewStartTime, this`previewDuration
      ensures started.None? ==> status == 500
      ensures started == Some(false) ==> status == 400
      ensures started == Some(true) && Truthy(enablePreview) && NumberOf(duration).None? ==> status == 500
      ensures status == 200 <==> started == Some(true) && (!Truthy(enablePreview) || NumberOf(duration).Some?)
      ensures var opens := started == Some(true) && Truthy(enablePreview) && NumberOf(duration).Some? &&
                           NumberOf(duration).value > 0;
        && (opens ==> previewActive && previewStartTime == Some(now) && previewDuration == NumberOf(duration).value &&
                      reported == NumberOf(duration).value)
        && (!opens ==> previewActive == old(previewActive) && previewStartTime == old(previewStartTime) &&
                       previewDuration == old(previewDuration) && reported == 0)
    {
      if started.None? {
        return 500, 0;
      }
      if !started.value {
        return 400, 0;
      }
      if Truthy(enablePreview) {
        var d := NumberOf(duration);
        if d.None? {
          return 500, 0;
        }
        if d.value > 0 {
          previewActive := true;
          previewStartTime := Some(now);
          previewDuration := d.value;
          return 200, d.value;
        }
      }
      return 200, 0;
    }

    /** `POST /api/monitor/stop`: the preview is closed only when the stop
        succeeded. */
    method StopMonitor(stopped: Option<bool>) returns (status: int)
      modifies this`previewActive
      ensures status == (if stopped.None? then 500 else if stopped.value then 200 else 400)
      ensures previewActive == (if stopped == Some(true) then false else old(previewActive))
    {
      if stopped.None? {
        return 500;
      }
      if stopped.value {
        previewActive := false;
        return 200;
      }
      return 400;
    }

    /** `GET /api/preview/status`: the seconds left of the preview; an
        elapsed preview is closed. */
    method PreviewStatus(now: int) returns (active: bool, remaining: int)
      modifies this`previewActive
      ensures !old(previewActive) || old(previewStartTime).None? ==>
        !active && remaining == 0 && previewActive == old(previewActive)
      ensures old(previewActive) && old(previewStartTime).Some? ==>
        var elapsed := now - old(previewStartTime).value;
        && (active <==> elapsed < previewDuration)
        && previewActive == active
        && (active ==> remaining == previewDuration - elapsed && remaining > 0)
        && (!active ==> remaining == 0)
      ensures 0 <= remaining
    {
      if !previewActive || previewStartTime.None? {
        return false, 0;
      }
      var elapsed := now - previewStartTime.value;
      remaining := if previewDuration - elapsed > 0 then previewDuration - elapsed else 0;
      if elapsed >= previewDuration {
        previewActive := false;
        return false, 0;
      }
      return true, remaining;
    }

    /** The rewrite loop of `save_recipients`: find the first recipient line
        and replace it, or append one to the lines as read. */
    method RewriteLines(lines: seq<string>, recipients: string) returns (out: seq<string>)
      ensures out == RewrittenAsWritten(lines, recipients)
    {
      out := lines;
      var i := 0;
      while i < |out|
        invariant 0 <= i <= |out| && out == lines
        invariant forall j :: 0 <= j < i ==> !StartsWith(lines[j], TouserPrefix)
      {
        if StartsWith(out[i], TouserPrefix) {
          out := out[i := TouserLine(recipients)];
          return;
        }
        i := i + 1;
      }
      out := out + [TouserLine(recipients)];
    }

    /** `POST /api/messenger/save_recipients`: the stripped recipients must
        be non-empty and the `.env` file must exist; then its recipient line
        is rewritten in the lines `readlines()` gives and the lines are
        written back, the process environment is updated, and, once the
        services are built, the messenger rebuilt for the new list. A body
        that is not a JSON object, or recipients that are not a string,
        raise (500). */
    method SaveRecipients(data: Option<map<string, Value>>) returns (outcome: SaveOutcome)
      modifies this`envText, this`envTouser, this`messengerRecipient
      ensures var raw := if data.Some? then Get(data.value, "recipients", VStr("")) else VNone;
        && (!raw.VStr? ==> outcome == Raised500)
        && (raw.VStr? && (Trim(raw.s) == "" || envText.None?) ==> outcome == Rejected400)
        && (outcome.Saved? <==> raw.VStr? && Trim(raw.s) != "" && old(envText).Some?)
        && (outcome.Saved? ==>
              outcome.recipients == Trim(raw.s) &&
              envText == Some(Concat(RewrittenAsWritten(ReadLines(old(envText).value), Trim(raw.s)))) &&
              envTouser == Trim(raw.s) &&
              messengerRecipient == (if servicesBuilt then Some(Trim(raw.s)) else old(messengerRecipient)))
        && (!outcome.Saved? ==>
              envText == old(envText) && envTouser == old(envTouser) &&
              messengerRecipient == old(messengerRecipient))
    {
      if data.None? {
        return Raised500;
      }
      var raw := Get(data.value, "recipients", VStr(""));
      if !raw.VStr? {
        return Raised500;
      }
      var recipients := Trim(raw.s);
      if recipients == "" || envText.None? {
        return Rejected400;
      }
      var out := RewriteLines(ReadLines(envText.value), recipients);
      envText := Some(Concat(out));
      envTouser := recipients;
      if servicesBuilt {
        messengerRecipient := Some(recipients);
      }
      return Saved(recipients);
    }
  }
}
