/** The process-wide camera (src/vision/camera_singleton.py): one device
    handle that is reopened whenever the mode changes, single-frame capture
    that first drains the driver's buffer, and frame reads for streaming.
    The device is a parameter: `open` is what opening it does, and `read(k)`
    is the outcome of the k-th read since the program started. */
module CameraDevice {
  import opened Common

  datatype CameraMode = Capture | Stream

  /** An opened `cv2.VideoCapture`; `isOpen` is what `isOpened()` reports. */
  datatype Handle = Handle(isOpen: bool)

  /** What `cv2.VideoCapture(index)` does. */
  datatype OpenOutcome = Opened | NotOpened | OpenRaised

  /** What one `cap.read()` does: a frame, `ret == False`, or an exception. */
  datatype ReadOutcome = Got(frame: int) | NoFrame | ReadRaised

  /** `strftime('%m%d%Y %H%M%S')`. */
  function Stamp(t: DateTime): string
  {
    ZeroPad(t.month, 2) + ZeroPad(t.day, 2) + ZeroPad(t.year, 4) + " " +
    ZeroPad(t.hour, 2) + ZeroPad(t.minute, 2) + ZeroPad(t.second, 2)
  }

  /** The default capture name has 15 characters: eight date digits, a
      space, six time digits. */
  lemma StampShape(t: DateTime)
    requires ValidDateTime(t)
    ensures |Stamp(t)| == 15 && Stamp(t)[8] == ' '
    ensures forall i :: 0 <= i < 15 && i != 8 ==> IsDigit(Stamp(t)[i])
  {
    NatToStringShort(t.month, 2);
    NatToStringShort(t.day, 2);
    NatToStringShort(t.year, 4);
    NatToStringShort(t.hour, 2);
    NatToStringShort(t.minute, 2);
    NatToStringShort(t.second, 2);
    var s := Stamp(t);
    var date := ZeroPad(t.month, 2) + ZeroPad(t.day, 2) + ZeroPad(t.year, 4);
    var time := ZeroPad(t.hour, 2) + ZeroPad(t.minute, 2) + ZeroPad(t.second, 2);
    assert s == date + " " + time;
    forall i | 0 <= i < 15 && i != 8 ensures IsDigit(s[i]) {
      if i < 8 {
        assert s[i] == date[i];
        if i < 2 { assert date[i] == ZeroPad(t.month, 2)[i]; }
        else if i < 4 { assert date[i] == ZeroPad(t.day, 2)[i - 2]; }
        else { assert date[i] == ZeroPad(t.year, 4)[i - 4]; }
      } else {
        assert s[i] == time[i - 9];
        if i < 11 { assert time[i - 9] == ZeroPad(t.hour, 2)[i - 9]; }
        else if i < 13 { assert time[i - 9] == ZeroPad(t.minute, 2)[i - 11]; }
        else { assert time[i - 9] == ZeroPad(t.second, 2)[i - 13]; }
      }
    }
  }

  /** The file `capture` writes: the default name under data/captures, or the
      given path, made absolute against the project root. */
  function OutputFile(root: string, outputPath: Option<string>, now: DateTime): string
  {
    match outputPath
    case None => root + "/data/captures/" + Stamp(now) + ".jpg"
    case Some(p) => if StartsWith(p, "/") then p else root + "/" + p
  }

  /** `Path.relative_to(root)`; None is the ValueError for a path outside it. */
  function RelativeTo(path: string, root: string): (r: Option<string>)
    ensures r.Some? <==> StartsWith(path, root + "/")
    ensures r.Some? ==> root + "/" + r.value == path
  {
    if StartsWith(path, root + "/") then Some(path[|root| + 1..]) else None
  }

  class CameraSingleton {
    var cap: Option<Handle>
    var mode: Option<CameraMode>
    var lastFrame: Option<int>
    var lastFrameTime: Option<int>
    /** How many reads the device has served. */
    var readCount: nat
    /** The files `cv2.imwrite` was asked to write, with the frame written. */
    var written: seq<(string, int)>
    const projectRoot: string

    /** A mode is set only while a handle is held. */
    ghost predicate Valid()
      reads this
    {
      mode.Some? ==> cap.Some?
    }

    constructor (projectRoot: string)
      ensures Valid() && cap.None? && mode.None? && readCount == 0 && written == []
      ensures lastFrame.None? && lastFrameTime.None? && this.projectRoot == projectRoot
    {
      this.projectRoot := projectRoot;
      cap, mode := None, None;
      lastFrame, lastFrameTime := None, None;
      readCount, written := 0, [];
    }

    predicate IsOpen()
      reads this
    {
      cap.Some? && cap.value.isOpen
    }

    /** Whether `switch_to_mode(target)` reports success when opening the
        device would do `open`. */
    predicate WouldSwitch(target: CameraMode, open: OpenOutcome)
      reads this
    {
      (mode == Some(target) && IsOpen()) || open == Opened
    }

    /** `switch_to_mode`: nothing to do when already in the target mode with
        an open handle; otherwise release any handle, test whether to wait
        for the device to settle, and open a new one. The test reads the
        mode after the release has cleared it, so `settled` (whether the
        wait ran) is always false. */
    method SwitchToMode(target: CameraMode, open: OpenOutcome) returns (ok: bool, settled: bool)
      requires Valid()
      modifies this`cap, this`mode
      ensures Valid()
      ensures ok == old(WouldSwitch(target, open))
      ensures old(mode) == Some(target) && old(IsOpen()) ==>
        ok && cap == old(cap) && mode == old(mode)
      ensures !settled
      ensures !(old(mode) == Some(target) && old(IsOpen())) ==>
        (ok <==> open == Opened) &&
        (ok ==> mode == Some(target) && cap == Some(Handle(true))) &&
        (!ok ==> mode.None? && cap == (if open == NotOpened then Some(Handle(false)) else None))
    {
      if mode == Some(target) && cap.Some? && cap.value.isOpen {
        return true, false;
      }
      if cap.Some? {
        cap := None;
        mode := None;
      }
      settled := SettleDelayAsWritten(mode);
      match open
      case OpenRaised =>
        return false, settled;
      case NotOpened =>
        cap := Some(Handle(false));
        return false, settled;
      case Opened =>
        cap := Some(Handle(true));
        mode := Some(target);
        return true, settled;
    }

    /** `switch_to_mode` with the settle test made as evidently intended:
        the wait runs exactly when the switch released a handle. Everything
        else is as in `SwitchToMode`. */
    method SwitchToModeIntended(target: CameraMode, open: OpenOutcome) returns (ok: bool, settled: bool)
      requires Valid()
      modifies this`cap, this`mode
      ensures Valid()
      ensures ok == old(WouldSwitch(target, open))
      ensures old(mode) == Some(target) && old(IsOpen()) ==>
        ok && cap == old(cap) && mode == old(mode)
      ensures settled <==> !(old(mode) == Some(target) && old(IsOpen())) && old(cap).Some?
      ensures !(old(mode) == Some(target) && old(IsOpen())) ==>
        (ok <==> open == Opened) &&
        (ok ==> mode == Some(target) && cap == Some(Handle(true))) &&
        (!ok ==> mode.None? && cap == (if open == NotOpened then Some(Handle(false)) else None))
    {
      if mode == Some(target) && cap.Some? && cap.value.isOpen {
        return true, false;
      }
      var released := cap.Some?;
      if released {
        cap := None;
        mode := None;
      }
      settled := SettleDelay(released);
      match open
      case OpenRaised =>
        return false, settled;
      case NotOpened =>
        cap := Some(Handle(false));
        return false, settled;
      case Opened =>
        cap := Some(Handle(true));
        mode := Some(target);
        return true, settled;
    }

    /** `capture`: drain two frames, read the one to save, write it, and
        return its path relative to the project root. */
    method CaptureImage(outputPath: Option<string>, read: nat -> ReadOutcome, now: DateTime) returns (path: Option<string>)
      modifies this`readCount, this`written
      ensures !old(IsOpen()) ==> path.None? && readCount == old(readCount) && written == old(written)
      ensures path.Some? ==>
        readCount == old(readCount) + 3 && read(old(readCount) + 2).Got? &&
        written == old(written) + [(OutputFile(projectRoot, outputPath, now), read(old(readCount) + 2).frame)] &&
        path == RelativeTo(OutputFile(projectRoot, outputPath, now), projectRoot)
      ensures (old(IsOpen()) && read(old(readCount)) != ReadRaised && read(old(readCount) + 1) != ReadRaised &&
               read(old(readCount) + 2).Got?) ==>
        readCount == old(readCount) + 3 && path == RelativeTo(OutputFile(projectRoot, outputPath, now), projectRoot)
      ensures old(IsOpen()) && read(old(readCount) + 2) == NoFrame ==> path.None?
    {
      if !(cap.Some? && cap.value.isOpen) {
        return None;
      }
      for k := 0 to 2
        invariant readCount == old(readCount) + k
        invariant k >= 1 ==> read(old(readCount)) != ReadRaised
        invariant k >= 2 ==> read(old(readCount) + 1) != ReadRaised
        invariant written == old(written)
      {
        var r := read(readCount);
        readCount := readCount + 1;
        if r == ReadRaised {
          return None;
        }
      }
      var r := read(readCount);
      readCount := readCount + 1;
      if !r.Got? {
        return None;
      }
      var file := OutputFile(projectRoot, outputPath, now);
      written := written + [(file, r.frame)];
      path := RelativeTo(file, projectRoot);
    }

    /** `read_frame`: one read; the last frame and its time change only when
        a frame came back. */
    method ReadFrame(read: nat -> ReadOutcome, now: int) returns (r: Option<(bool, Option<int>)>)
      modifies this`readCount, this`lastFrame, this`lastFrameTime
      ensures !old(IsOpen()) ==> r.None? && readCount == old(readCount) && lastFrame == old(lastFrame)
      ensures old(IsOpen()) ==> readCount == old(readCount) + 1
      ensures old(IsOpen()) ==> match read(old(readCount))
        case Got(f) => r == Some((true, Some(f))) && lastFrame == Some(f) && lastFrameTime == Some(now)
        case NoFrame => r == Some((false, None)) && lastFrame == old(lastFrame) && lastFrameTime == old(lastFrameTime)
        case ReadRaised => r.None? && lastFrame == old(lastFrame) && lastFrameTime == old(lastFrameTime)
      ensures !old(IsOpen()) ==> lastFrameTime == old(lastFrameTime)
    {
      if !(cap.Some? && cap.value.isOpen) {
        return None;
      }
      var outcome := read(readCount);
      readCount := readCount + 1;
      match outcome
      case ReadRaised =>
        return None;
      case NoFrame =>
        return Some((false, None));
      case Got(f) =>
        lastFrame := Some(f);
        lastFrameTime := Some(now);
        return Some((true, Some(f)));
    }

    /** `shutdown`: release the handle and forget the mode. */
    method Shutdown()
      modifies this`cap, this`mode
      ensures Valid() && cap.None? && mode.None?
    {
      if cap.Some? {
        cap := None;
      }
      mode := None;
    }
  }

  /** The settle-delay test as written: it reads the mode after the release
      has already reset it. */
  function SettleDelayAsWritten(modeAfterRelease: Option<CameraMode>): bool
  {
    modeAfterRelease.Some?
  }

  /** The settle delay as evidently intended: wait whenever a handle was
      just released. */
  function SettleDelay(released: bool): bool
  {
    released
  }

  /** As written, the delay never happens: at that point a valid camera has
      no mode whether or not it released a handle, while a real mode switch
      does release one. */
  lemma SettleDelayNeverFires(c: CameraSingleton, target: CameraMode)
    requires c.Valid() && !(c.mode == Some(target) && c.IsOpen())
    ensures var modeAfterRelease := if c.cap.Some? then None else c.mode;
      !SettleDelayAsWritten(modeAfterRelease)
  {
  }
}
