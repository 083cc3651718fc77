/** The Kimi vision analyzer of the newer monitoring service
    (src/ai/vision_analyzer.py): encode the snapshot, call the chat
    completions API with retries, and parse the JSON the model answers.
    The file system, the HTTP replies and `json.loads` are parameters; a
    result of None is an exception. The analyzer keeps no state. */
module VisionAI {
  import opened Common

  // -------------------------------------------------------------- Encoding

  /** A POSIX absolute path starts with "/". */
  predicate IsAbsolute(p: string)
  {
    |p| > 0 && p[0] == '/'
  }

  /** `project_root / image_path` for a relative path; an absolute one is
      used as it is. */
  function Resolve(imagePath: string, projectRoot: string): (p: string)
    ensures IsAbsolute(imagePath) ==> p == imagePath
    ensures !IsAbsolute(imagePath) ==> p == projectRoot + "/" + imagePath
  {
    if IsAbsolute(imagePath) then imagePath else projectRoot + "/" + imagePath
  }

  /** The length of the base64 text of `n` bytes. */
  function Base64Length(n: nat): nat
  {
    4 * ((n + 2) / 3)
  }

  lemma Base64EmptyOnlyForEmpty(n: nat)
    ensures Base64Length(n) == 0 <==> n == 0
    ensures n > 0 ==> Base64Length(n) >= 4
  {
  }

  /** `_encode_image`: None when the resolved file does not exist or cannot
      be read; otherwise the base64 text, of which only the length is
      modelled. `size(p)` is None when reading `p` raises. */
  function EncodeImage(imagePath: string, projectRoot: string, exists_: string -> bool, size: string -> Option<nat>)
    : (r: Option<nat>)
    ensures r.Some? <==> exists_(Resolve(imagePath, projectRoot)) && size(Resolve(imagePath, projectRoot)).Some?
    ensures r.Some? ==> r.value == Base64Length(size(Resolve(imagePath, projectRoot)).value)
  {
    var path := Resolve(imagePath, projectRoot);
    if !exists_(path) then None
    else match size(path)
      case None => None
      case Some(n) => Some(Base64Length(n))
  }

  // ------------------------------------------------------------- API call

  /** The reply body: `choices` absent, or each choice's
      `message.content`, a choice without one being None. */
  datatype Completion = Completion(choices: Option<seq<Option<Value>>>)

  /** httpx's `raise_for_status` raises for any status outside 2xx. */
  predicate StatusOk(status: int)
  {
    200 <= status < 300
  }

  /** `_call_api`: `{"raw_content": content}` from the first choice; an
      error status, a missing or empty `choices`, or a first choice
      without content raises. */
  function CallApi(status: int, body: Completion): (r: Option<map<string, Value>>)
    ensures r.Some? <==>
      StatusOk(status) && body.choices.Some? && |body.choices.value| > 0 && body.choices.value[0].Some?
    ensures r.Some? ==> r.value == map["raw_content" := body.choices.value[0].value]
  {
    if !StatusOk(status) then None
    else match body.choices
      case None => None
      case Some(cs) =>
        if |cs| > 0 && cs[0].Some? then Some(map["raw_content" := cs[0].value]) else None
  }

  /** The outcome of `_call_api_with_retry`: the reply, the number of calls
      made and the number of one-second sleeps between them. */
  datatype RetryOutcome = RetryOutcome(reply: Option<map<string, Value>>, calls: nat, sleeps: nat)

  /** The first attempt from `a` below `maxRetries` whose call returns. */
  function FirstAnswer(call: nat -> Option<map<string, Value>>, a: nat, maxRetries: int): (r: Option<nat>)
    ensures r.Some? ==> a <= r.value < maxRetries && call(r.value).Some? && forall b :: a <= b < r.value ==> call(b).None?
    ensures r.None? ==> forall b :: a <= b < maxRetries ==> call(b).None?
    decreases maxRetries - a
  {
    if a >= maxRetries then None
    else if call(a).Some? then Some(a)
    else FirstAnswer(call, a + 1, maxRetries)
  }

  /** `_call_api_with_retry`: call at most `max_retries` times and return
      the first reply; sleep after every failure but the last; raise once
      every call has failed (at once when `max_retries` is not positive).
      `call(a)` is what attempt `a` returns, None when it raises. */
  method CallApiWithRetry(maxRetries: int, call: nat -> Option<map<string, Value>>) returns (o: RetryOutcome)
    ensures FirstAnswer(call, 0, maxRetries).Some? ==>
      var a := FirstAnswer(call, 0, maxRetries).value;
      o == RetryOutcome(call(a), a + 1, a)
    ensures FirstAnswer(call, 0, maxRetries).None? ==>
      o.reply.None? && o.calls == (if maxRetries > 0 then maxRetries else 0) && o.sleeps == (if maxRetries > 0 then maxRetries - 1 else 0)
  {
    var sleeps := 0;
    var attempt := 0;
    while attempt < maxRetries
      invariant 0 <= attempt && (maxRetries > 0 ==> attempt < maxRetries) && (maxRetries <= 0 ==> attempt == 0)
      invariant FirstAnswer(call, 0, maxRetries) == FirstAnswer(call, attempt, maxRetries)
      invariant sleeps == attempt
    {
      var reply := call(attempt);
      if reply.Some? {
        return RetryOutcome(reply, attempt + 1, sleeps);
      }
      if attempt < maxRetries - 1 {
        sleeps := sleeps + 1;
      } else {
        return RetryOutcome(None, attempt + 1, sleeps);
      }
      attempt := attempt + 1;
    }
    return RetryOutcome(None, 0, 0);
  }

  /** The retries return a reply iff some attempt within the limit does. */
  lemma RetryAnswersIffSomeAttempt(call: nat -> Option<map<string, Value>>, maxRetries: int)
    ensures FirstAnswer(call, 0, maxRetries).Some? <==> exists a :: 0 <= a < maxRetries && call(a).Some?
  {
    if FirstAnswer(call, 0, maxRetries).None? {
      assert forall a :: 0 <= a < maxRetries ==> call(a).None?;
    }
  }

  // -------------------------------------------------------------- Parsing

  /** The analysis used when the model's answer is not JSON. */
  function DefaultAnalysis(): (d: Value)
    ensures d.VDict? && |d.entries.Keys| == 6
    ensures d.entries.Keys == {"is_desk_present", "is_posture_correct", "is_playing", "is_away", "confidence", "description"}
  {
    var m := map[
      "is_desk_present" := VBool(true),
      "is_posture_correct" := VBool(true),
      "is_playing" := VBool(false),
      "is_away" := VBool(false),
      "confidence" := VFloat("0.5"),
      "description" := VStr("无法解析 AI 响应")
    ];
    assert m.Keys == {"is_desk_present", "is_posture_correct", "is_playing", "is_away", "confidence", "description"};
    VDict(m)
  }

  /** The default says the student is at the desk and not playing. */
  lemma DefaultIsReassuring()
    ensures Truthy(DefaultAnalysis().entries["is_desk_present"]) && !Truthy(DefaultAnalysis().entries["is_playing"])
    ensures !Truthy(DefaultAnalysis().entries["is_away"])
  {
  }

  /** `_parse_response`: `json.loads(response.get("raw_content", ""))`, or
      the default analysis when that is not JSON. `json.loads` of a
      non-string raises (None). */
  function ParseResponse(response: map<string, Value>, parse: string -> Option<Value>): (r: Option<Value>)
    ensures r.None? <==> !Get(response, "raw_content", VStr("")).VStr?
    ensures r.Some? && parse(Get(response, "raw_content", VStr("")).s).Some? ==>
      r == parse(Get(response, "raw_content", VStr("")).s)
    ensures r.Some? && parse(Get(response, "raw_content", VStr("")).s).None? ==> r == Some(DefaultAnalysis())
  {
    match Get(response, "raw_content", VStr(""))
    case VStr(raw) =>
      (match parse(raw)
       case Some(v) => Some(v)
       case None => Some(DefaultAnalysis()))
    case _ => None
  }

  /** `analyze`: encode, call with retries, parse. An image that cannot be
      encoded, or encodes to nothing (an empty file), raises before any
      call. */
  method Analyze(imagePath: string, projectRoot: string, exists_: string -> bool, size: string -> Option<nat>,
                 maxRetries: int, call: nat -> Option<map<string, Value>>, parse: string -> Option<Value>)
    returns (r: Option<Value>, calls: nat)
    ensures var encoded := EncodeImage(imagePath, projectRoot, exists_, size);
      (encoded.None? || encoded.value == 0) ==> r.None? && calls == 0
    ensures var encoded := EncodeImage(imagePath, projectRoot, exists_, size);
      encoded.Some? && encoded.value > 0 ==>
        (FirstAnswer(call, 0, maxRetries).None? ==> r.None?) &&
        (FirstAnswer(call, 0, maxRetries).Some? ==>
          r == ParseResponse(call(FirstAnswer(call, 0, maxRetries).value).value, parse) &&
          calls == FirstAnswer(call, 0, maxRetries).value + 1)
  {
    var encoded := EncodeImage(imagePath, projectRoot, exists_, size);
    if encoded.None? || encoded.value == 0 {
      return None, 0;
    }
    var o := CallApiWithRetry(maxRetries, call);
    if o.reply.None? {
      return None, o.calls;
    }
    return ParseResponse(o.reply.value, parse), o.calls;
  }
}
