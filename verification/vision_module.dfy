/** The camera and the Kimi analyzer of the older monitoring loop
    (modules/vision/__init__.py). The camera handle is a flag, and what its
    reads do is a parameter: `read(k)` is whether the k-th read of a
    capture returns a frame, returns none, or raises. The image size, the file system and the HTTP
    reply are parameters of the analyzer; a result of None is an exception.
    Times are whole seconds. */
module VisionMod {
  import opened Common
  import opened CameraDevice

  /** How many attempts `capture` makes. */
  const MaxRetries := 3

  /** Frames read and thrown away before the frame that is kept. */
  const Discards := 2

  /** The index of the kept read of attempt `a`, counting every read of the
      capture from 0. */
  function KeptRead(a: nat): nat
  {
    a * (Discards + 1) + Discards
  }

  /** The first attempt from `a` on whose kept read returns a frame. */
  function FirstGood(readOk: nat -> bool, a: nat): (r: Option<nat>)
    ensures r.Some? ==>
      a <= r.value < MaxRetries && readOk(KeptRead(r.value)) &&
      forall b :: a <= b < r.value ==> !readOk(KeptRead(b))
    ensures r.None? ==> forall b :: a <= b < MaxRetries ==> !readOk(KeptRead(b))
    decreases MaxRetries - a
  {
    if a >= MaxRetries then None
    else if readOk(KeptRead(a)) then Some(a)
    else FirstGood(readOk, a + 1)
  }

  /** How the reads of a capture with a handle end: the kept read of an
      attempt returning a frame, a read (kept or discarded) raising, or
      three misses. Read indices count every read of the capture from 0. */
  datatype ReadsEnd = FrameAt(attempt: nat) | RaisedAt(n: nat) | Exhausted

  /** How many reads a capture that ends so has made. */
  function ReadsMade(e: ReadsEnd): nat
  {
    match e
    case FrameAt(a) => KeptRead(a) + 1
    case RaisedAt(n) => n + 1
    case Exhausted => MaxRetries * (Discards + 1)
  }

  /** The index of read `d` of attempt `a`. */
  function ReadIndex(a: nat, d: nat): nat
  {
    a * (Discards + 1) + d
  }

  /** The end of the reads from read `d` of attempt `a` on. */
  function ReadsFrom(read: nat -> ReadOutcome, a: nat, d: nat): ReadsEnd
    requires d <= Discards
    decreases MaxRetries - a, Discards - d
  {
    if a >= MaxRetries then Exhausted
    else if read(ReadIndex(a, d)).ReadRaised? then RaisedAt(ReadIndex(a, d))
    else if d < Discards then ReadsFrom(read, a, d + 1)
    else if read(ReadIndex(a, d)).Got? then FrameAt(a)
    else ReadsFrom(read, a + 1, 0)
  }

  /** The reads end at a good kept read of an attempt from `a` on, or at
      a read that raises, or after all nine. */
  lemma {:induction false} ReadsFromEnds(read: nat -> ReadOutcome, a: nat, d: nat)
    requires d <= Discards
    ensures var r := ReadsFrom(read, a, d);
      && (r.FrameAt? ==> a <= r.attempt < MaxRetries && read(KeptRead(r.attempt)).Got?)
      && (r.RaisedAt? ==> ReadIndex(a, d) <= r.n < MaxRetries * (Discards + 1) && read(r.n).ReadRaised?)
    decreases MaxRetries - a, Discards - d
  {
    if a < MaxRetries {
      ReadsFromStep(read, a, d);
      if !read(ReadIndex(a, d)).ReadRaised? {
        if d < Discards {
          ReadsFromEnds(read, a, d + 1);
        } else if !read(ReadIndex(a, d)).Got? {
          ReadsFromEnds(read, a + 1, 0);
        }
      }
    }
  }

  /** No read before the end of the reads raises. */
  lemma {:induction false} ReadsFromNoEarlierRaise(read: nat -> ReadOutcome, a: nat, d: nat)
    requires d <= Discards
    ensures var r := ReadsFrom(read, a, d);
      forall j :: ReadIndex(a, d) <= j < ReadsMade(r) - 1 ==> !read(j).ReadRaised?
    decreases MaxRetries - a, Discards - d
  {
    if a < MaxRetries {
      ReadsFromStep(read, a, d);
      if !read(ReadIndex(a, d)).ReadRaised? {
        if d < Discards {
          ReadsFromNoEarlierRaise(read, a, d + 1);
        } else if !read(ReadIndex(a, d)).Got? {
          ReadsFromNoEarlierRaise(read, a + 1, 0);
        }
      }
    }
  }

  /** One read of an attempt below three: where the reads end, or where
      they go on. */
  lemma ReadsFromStep(read: nat -> ReadOutcome, a: nat, d: nat)
    requires a < MaxRetries && d <= Discards
    ensures read(ReadIndex(a, d)).ReadRaised? ==> ReadsFrom(read, a, d) == RaisedAt(ReadIndex(a, d))
    ensures !read(ReadIndex(a, d)).ReadRaised? && d < Discards ==>
      ReadsFrom(read, a, d) == ReadsFrom(read, a, d + 1) && ReadIndex(a, d) + 1 == ReadIndex(a, d + 1)
    ensures read(ReadIndex(a, d)).Got? && d == Discards ==>
      ReadsFrom(read, a, d) == FrameAt(a) && ReadsMade(FrameAt(a)) == ReadIndex(a, d) + 1
    ensures read(ReadIndex(a, d)).NoFrame? && d == Discards ==>
      ReadsFrom(read, a, d) == ReadsFrom(read, a + 1, 0) && ReadIndex(a, d) + 1 == ReadIndex(a + 1, 0)
    ensures ReadIndex(a, d) < MaxRetries * (Discards + 1)
  {
  }

  datatype CaptureOutcome =
    | Captured(path: string)
    /** `NotImplementedError`: no handle and no usable test image. */
    | NotInitialized
    /** An exception: a read raised, or the last attempt got no frame. */
    | ReadFailed

  /** `output_path or f"temp_capture_{int(time.time())}.jpg"`. */
  function OutputName(outputPath: Option<string>, now: int): (p: string)
    ensures outputPath.Some? && outputPath.value != "" ==> p == outputPath.value
    ensures (outputPath.None? || outputPath.value == "") ==> StartsWith(p, "temp_capture_")
  {
    if outputPath.Some? && outputPath.value != "" then outputPath.value
    else "temp_capture_" + IntToString(now) + ".jpg"
  }

  class Camera {
    /** Whether `self.cap` holds a handle. */
    var hasHandle: bool

    constructor ()
      ensures !hasHandle
    {
      hasHandle := false;
    }

    /** `capture`: without a handle only an existing test image given as
        the output path is returned. With one, each of at most three
        attempts reads and discards two frames and then reads the frame it
        keeps; the first good read ends the retries, and three bad ones
        raise. A read that raises, discarded or kept, ends the capture with
        that exception. `readCount` is how many reads were made. */
    method Capture(outputPath: Option<string>, testImageExists: bool, now: int, read: nat -> ReadOutcome)
      returns (r: CaptureOutcome, readCount: nat)
      ensures !hasHandle ==> readCount == 0
      ensures !hasHandle ==>
        (r.Captured? <==> outputPath.Some? && outputPath.value != "" && testImageExists) &&
        (r.Captured? ==> r.path == outputPath.value) && (!r.Captured? ==> r == NotInitialized)
      ensures hasHandle ==>
        (r.Captured? <==> ReadsFrom(read, 0, 0).FrameAt?) && readCount == ReadsMade(ReadsFrom(read, 0, 0))
      ensures hasHandle && r.Captured? ==> r.path == OutputName(outputPath, now)
      ensures hasHandle && !r.Captured? ==> r == ReadFailed
    {
      readCount := 0;
      if !hasHandle {
        if outputPath.Some? && outputPath.value != "" && testImageExists {
          return Captured(outputPath.value), 0;
        }
        return NotInitialized, 0;
      }
      var attempt := 0;
      while attempt < MaxRetries
        invariant 0 <= attempt <= MaxRetries
        invariant readCount == ReadIndex(attempt, 0)
        invariant ReadsFrom(read, 0, 0) == ReadsFrom(read, attempt, 0)
      {
        var d := 0;
        while d < Discards
          invariant 0 <= d <= Discards && readCount == ReadIndex(attempt, d)
          invariant ReadsFrom(read, 0, 0) == ReadsFrom(read, attempt, d)
        {
          ReadsFromStep(read, attempt, d);
          if read(readCount).ReadRaised? {
            return ReadFailed, readCount + 1;
          }
          readCount := readCount + 1;
          d := d + 1;
        }
        ReadsFromStep(read, attempt, d);
        var ret := read(readCount);
        readCount := readCount + 1;
        if ret.ReadRaised? {
          return ReadFailed, readCount;
        }
        if ret.Got? {
          return Captured(OutputName(outputPath, now)), readCount;
        }
        if attempt == MaxRetries - 1 {
          assert ReadsFrom(read, attempt + 1, 0) == Exhausted;
          return ReadFailed, readCount;
        }
        attempt := attempt + 1;
      }
      return ReadFailed, readCount;
    }

    /** `shutdown`: release the handle. */
    method Shutdown()
      modifies this
      ensures !hasHandle
    {
      hasHandle := false;
    }
  }

  /** A capture with a handle succeeds iff some attempt's kept read does,
      and never makes more than nine readCount. */
  /** Mid-attempt, reads that never raise reach that attempt's kept read. */
  lemma {:induction false} ReadsFromMidAttempt(read: nat -> ReadOutcome, a: nat, d: nat)
    requires d <= Discards && forall j :: !read(j).ReadRaised?
    ensures ReadsFrom(read, a, d) == ReadsFrom(read, a, Discards)
    decreases Discards - d
  {
    if a < MaxRetries && d < Discards {
      ReadsFromMidAttempt(read, a, d + 1);
    }
  }

  /** When no read raises, the capture ends at the kept read of the first
      good attempt, or after three misses when there is none. */
  lemma {:induction false} ReadsWithoutRaises(read: nat -> ReadOutcome, ok: nat -> bool, a: nat)
    requires forall j :: !read(j).ReadRaised?
    requires forall j :: ok(j) == read(j).Got?
    ensures FirstGood(ok, a).Some? ==> ReadsFrom(read, a, 0) == FrameAt(FirstGood(ok, a).value)
    ensures FirstGood(ok, a).None? ==> ReadsFrom(read, a, 0) == Exhausted
    decreases MaxRetries - a
  {
    if a < MaxRetries {
      ReadsFromMidAttempt(read, a, 0);
      if !ok(KeptRead(a)) {
        ReadsWithoutRaises(read, ok, a + 1);
      }
    }
  }

  lemma CaptureSucceedsIffSomeAttempt(readOk: nat -> bool)
    ensures FirstGood(readOk, 0).Some? <==> exists a :: 0 <= a < MaxRetries && readOk(KeptRead(a))
    ensures FirstGood(readOk, 0).Some? ==> KeptRead(FirstGood(readOk, 0).value) + 1 <= MaxRetries * (Discards + 1)
  {
  }

  // ------------------------------------------------------------- Analyzer

  /** The index of the last `c` in `s`. */
  function LastIndex(s: string, c: char): (r: Option<nat>)
    ensures r.Some? ==> r.value < |s| && s[r.value] == c && forall j :: r.value < j < |s| ==> s[j] != c
    ensures r.None? ==> Lacks(s, c)
  {
    if s == [] then None
    else if s[|s| - 1] == c then Some(|s| - 1)
    else LastIndex(s[..|s| - 1], c)
  }

  /** The last component of a "/"-separated path. */
  function FileName(p: string): (name: string)
    ensures Lacks(name, '/') && |name| <= |p| && name == p[|p| - |name|..]
  {
    match LastIndex(p, '/')
    case Some(i) => p[i + 1..]
    case None => p
  }

  /** `Path(p).stem`: the file name without its last suffix; a leading or
      trailing dot is not a suffix. */
  function Stem(p: string): (stem: string)
    ensures Lacks(stem, '/')
    ensures |stem| <= |FileName(p)| && stem == FileName(p)[..|stem|]
    ensures stem == FileName(p) || (|stem| < |FileName(p)| - 1 && FileName(p)[|stem|] == '.' &&
      Lacks(FileName(p)[|stem| + 1..], '.'))
  {
    var name := FileName(p);
    match LastIndex(name, '.')
    case Some(i) => if 0 < i < |name| - 1 then name[..i] else name
    case None => name
  }

  /** The name the resized image is saved under. */
  function ProcessedName(p: string): string
  {
    Stem(p) + "_processed.jpg"
  }

  /** The resized copy never has the original's path, so `analyze` never
      deletes the original. */
  lemma ProcessedNameDiffers(p: string)
    ensures ProcessedName(p) != p
  {
    var stem := Stem(p);
    var suffix := "_processed.jpg";
    var q := stem + suffix;
    if q == p {
      SuffixLacksSlash(stem, suffix);
      FileNameWithoutSlash(p);
    }
  }

  lemma SuffixLacksSlash(stem: string, suffix: string)
    requires Lacks(stem, '/') && suffix == "_processed.jpg"
    ensures Lacks(stem + suffix, '/')
  {
    var q := stem + suffix;
    forall j | 0 <= j < |q| ensures q[j] != '/' {
      if j >= |stem| {
        assert q[j] == suffix[j - |stem|];
      }
    }
  }

  /** A path with no "/" is its own file name. */
  lemma FileNameWithoutSlash(p: string)
    requires Lacks(p, '/')
    ensures FileName(p) == p
  {
  }

  /** `_preprocess_image`: the original path when the image already fits the
      target size, otherwise the resized copy's name. */
  function PreprocessedPath(imagePath: string, width: int, height: int, targetWidth: int, targetHeight: int): (p: string)
    ensures p == imagePath <==> width <= targetWidth && height <= targetHeight
    ensures p != imagePath ==> p == ProcessedName(imagePath)
  {
    ProcessedNameDiffers(imagePath);
    if width <= targetWidth && height <= targetHeight then imagePath else ProcessedName(imagePath)
  }

  /** The chat-completions reply body: `choices` absent, or each choice's
      `message.content`, None where a choice has no content. */
  datatype Completion = Completion(choices: Option<seq<Option<Value>>>)

  /** `result.get("choices", [{}])[0].get("message", {}).get("content", "{}")`
      as the text `json.loads` then reads: None when `choices` is an empty
      list (the index raises) or when the content is present but not a
      string (`json.loads` raises a TypeError, which only a decode error
      handler would have caught). */
  function ReplyContent(c: Completion): (r: Option<string>)
    ensures r.None? <==> c.choices == Some([]) || (c.choices.Some? && c.choices.value[0].Some? && !c.choices.value[0].value.VStr?)
    ensures c.choices.None? || (c.choices.Some? && c.choices.value != [] && c.choices.value[0].None?) ==> r == Some("{}")
    ensures c.choices.Some? && c.choices.value != [] && c.choices.value[0].Some? && c.choices.value[0].value.VStr? ==>
      r == Some(c.choices.value[0].value.s)
  {
    match c.choices
    case None => Some("{}")
    case Some(cs) =>
      if cs == [] then None
      else match cs[0]
        case None => Some("{}")
        case Some(VStr(text)) => Some(text)
        case Some(_) => None
  }

  /** `_call_kimi_api`: the parsed content on a 200 reply; an error map with
      the status for any other status; an error map with the raw content
      when it is not JSON. `parse` is `json.loads`. None is an exception. */
  function CallKimiApi(status: int, body: Completion, parse: string -> Option<Value>): (r: Option<Value>)
    ensures status != 200 ==>
      r.Some? && r.value.VDict? && r.value.entries.Keys == {"error", "status_code"} &&
      r.value.entries["status_code"] == VInt(status)
    ensures status == 200 ==> (r.None? <==> ReplyContent(body).None?)
    ensures status == 200 && ReplyContent(body).Some? && parse(ReplyContent(body).value).Some? ==>
      r == parse(ReplyContent(body).value)
    ensures status == 200 && ReplyContent(body).Some? && parse(ReplyContent(body).value).None? ==>
      r.Some? && r.value.VDict? && r.value.entries.Keys == {"error", "raw_content"} &&
      r.value.entries["raw_content"] == VStr(ReplyContent(body).value)
  {
    if status != 200 then Some(VDict(map["error" := VStr("API 调用失败"), "status_code" := VInt(status)]))
    else match ReplyContent(body)
      case None => None
      case Some(content) =>
        match parse(content)
        case Some(v) => Some(v)
        case None => Some(VDict(map["error" := VStr("JSON 解析失败"), "raw_content" := VStr(content)]))
  }

  datatype Analysis = Analysis(result: Option<Value>, deleted: Option<string>)

  /** `analyze`: preprocess, call the API, then delete the resized copy if
      there is one. When the call raises, the copy is left behind. */
  function Analyze(imagePath: string, width: int, height: int, targetWidth: int, targetHeight: int,
                   processedExists: bool, status: int, body: Completion, parse: string -> Option<Value>): (a: Analysis)
    ensures a.result == CallKimiApi(status, body, parse)
    ensures a.deleted.Some? <==> a.result.Some? && !(width <= targetWidth && height <= targetHeight) && processedExists
    ensures a.deleted.Some? ==> a.deleted.value == ProcessedName(imagePath) && a.deleted.value != imagePath
  {
    var processed := PreprocessedPath(imagePath, width, height, targetWidth, targetHeight);
    var result := CallKimiApi(status, body, parse);
    if result.None? then Analysis(None, None)
    else if processed != imagePath && processedExists then Analysis(result, Some(processed))
    else Analysis(result, None)
  }
}
