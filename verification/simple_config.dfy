/** The monitor configuration (src/monitor/simple_config.py). A
    `MonitorConfig` instance holds eleven public settings plus the internal
    `_config_file`; since the dataclass does not enforce its annotations,
    each setting holds whatever value was stored there. */
module Config {
  import opened Common

  /** The eleven public settings, as named by `to_dict`. */
  datatype Field =
    | Rules | MinNotifyInterval | MaxNotifyInterval | ConsecutiveFailLimit
    | AutoStartTime | AutoStopTime | EnableTimeScheduler
    | CaptureInterval | PreviewDuration | EnablePreview | LogDir

  /** The settings, each holding whatever value Python stored there, and the
      internal `_config_file`. */
  datatype MonitorConfigData = MonitorConfigData(
    rules: Value,
    minNotifyInterval: Value,
    maxNotifyInterval: Value,
    consecutiveFailLimit: Value,
    autoStartTime: Value,
    autoStopTime: Value,
    enableTimeScheduler: Value,
    captureInterval: Value,
    previewDuration: Value,
    enablePreview: Value,
    logDir: Value,
    configFile: Option<string>)

  function Name(f: Field): string
  {
    match f
    case Rules => "rules"
    case MinNotifyInterval => "min_notify_interval"
    case MaxNotifyInterval => "max_notify_interval"
    case ConsecutiveFailLimit => "consecutive_fail_limit"
    case AutoStartTime => "auto_start_time"
    case AutoStopTime => "auto_stop_time"
    case EnableTimeScheduler => "enable_time_scheduler"
    case CaptureInterval => "capture_interval"
    case PreviewDuration => "preview_duration"
    case EnablePreview => "enable_preview"
    case LogDir => "log_dir"
  }

  /** The public setting a keyword names, if any; with `MethodNames` these
      are the keys for which `hasattr(self, key) and not key.startswith("_")`
      holds. */
  function FieldNamed(key: string): (r: Option<Field>)
    ensures r.Some? ==> Name(r.value) == key
    ensures forall f :: key == Name(f) ==> r == Some(f)
    ensures r.Some? ==> key !in MethodNames
  {
    if key == "rules" then Some(Rules)
    else if key == "min_notify_interval" then Some(MinNotifyInterval)
    else if key == "max_notify_interval" then Some(MaxNotifyInterval)
    else if key == "consecutive_fail_limit" then Some(ConsecutiveFailLimit)
    else if key == "auto_start_time" then Some(AutoStartTime)
    else if key == "auto_stop_time" then Some(AutoStopTime)
    else if key == "enable_time_scheduler" then Some(EnableTimeScheduler)
    else if key == "capture_interval" then Some(CaptureInterval)
    else if key == "preview_duration" then Some(PreviewDuration)
    else if key == "enable_preview" then Some(EnablePreview)
    else if key == "log_dir" then Some(LogDir)
    else None
  }

  predicate IsNumeric(f: Field)
  {
    f in {MinNotifyInterval, MaxNotifyInterval, ConsecutiveFailLimit, CaptureInterval, PreviewDuration}
  }

  predicate IsBool(f: Field)
  {
    f == EnablePreview || f == EnableTimeScheduler
  }

  function Attr(c: MonitorConfigData, f: Field): Value
  {
    match f
    case Rules => c.rules
    case MinNotifyInterval => c.minNotifyInterval
    case MaxNotifyInterval => c.maxNotifyInterval
    case ConsecutiveFailLimit => c.consecutiveFailLimit
    case AutoStartTime => c.autoStartTime
    case AutoStopTime => c.autoStopTime
    case EnableTimeScheduler => c.enableTimeScheduler
    case CaptureInterval => c.captureInterval
    case PreviewDuration => c.previewDuration
    case EnablePreview => c.enablePreview
    case LogDir => c.logDir
  }

  /** `setattr(self, name, v)` for a public setting. */
  function SetAttr(c: MonitorConfigData, f: Field, v: Value): (c': MonitorConfigData)
    ensures Attr(c', f) == v
    ensures forall g :: g != f ==> Attr(c', g) == Attr(c, g)
    ensures c'.configFile == c.configFile
  {
    match f
    case Rules => c.(rules := v)
    case MinNotifyInterval => c.(minNotifyInterval := v)
    case MaxNotifyInterval => c.(maxNotifyInterval := v)
    case ConsecutiveFailLimit => c.(consecutiveFailLimit := v)
    case AutoStartTime => c.(autoStartTime := v)
    case AutoStopTime => c.(autoStopTime := v)
    case EnableTimeScheduler => c.(enableTimeScheduler := v)
    case CaptureInterval => c.(captureInterval := v)
    case PreviewDuration => c.(previewDuration := v)
    case EnablePreview => c.(enablePreview := v)
    case LogDir => c.(logDir := v)
  }

  /** The default of each numeric setting in `from_dict`. */
  function NumericDefault(f: Field): int
  {
    match f
    case MinNotifyInterval => 10
    case MaxNotifyInterval => 60
    case ConsecutiveFailLimit => 5
    case CaptureInterval => 30
    case _ => 10
  }

  /** Python `int(text)` for the `str()` of a float: `[-]digits.digits`,
      truncated toward zero. */
  function TruncFloat(text: string): Option<int>
  {
    var parts := Split(text, '.');
    if |parts| != 2 then None
    else
      var whole := parts[0];
      var neg := whole != [] && whole[0] == '-';
      var digits := if neg then whole[1..] else whole;
      if digits != [] && AllDigits(digits) && AllDigits(parts[1]) then
        Some(if neg then -(DigitsValue(digits) as int) else DigitsValue(digits) as int)
      else None
  }

  /** Python `int(v)`; None is the ValueError or TypeError it raises. */
  function IntOf(v: Value): (r: Option<int>)
    ensures v.VInt? ==> r == Some(v.i)
    ensures v.VBool? ==> r == Some(if v.b then 1 else 0)
    ensures v.VNone? || v.VList? || v.VDict? ==> r.None?
  {
    match v
    case VBool(b) => Some(if b then 1 else 0)
    case VInt(i) => Some(i)
    case VStr(s) => ParseInt(s)
    case VFloat(t) => TruncFloat(t)
    case _ => None
  }

  /** `to_int` inside `from_dict`. */
  function ToInt(v: Value, default: int): (r: int)
    ensures v.VNone? ==> r == default
    ensures IntOf(v).Some? ==> r == IntOf(v).value
    ensures IntOf(v).None? ==> r == default
  {
    if v.VNone? then default
    else match IntOf(v)
      case Some(i) => i
      case None => default
  }

  /** `to_dict`: the eleven public settings under their names, never
      `_config_file`. */
  function ToDict(c: MonitorConfigData): (d: map<string, Value>)
    ensures forall f :: Name(f) in d && d[Name(f)] == Attr(c, f)
    ensures forall k :: k in d ==> FieldNamed(k).Some?
  {
    map[
      "rules" := c.rules,
      "min_notify_interval" := c.minNotifyInterval,
      "max_notify_interval" := c.maxNotifyInterval,
      "consecutive_fail_limit" := c.consecutiveFailLimit,
      "auto_start_time" := c.autoStartTime,
      "auto_stop_time" := c.autoStopTime,
      "enable_time_scheduler" := c.enableTimeScheduler,
      "capture_interval" := c.captureInterval,
      "preview_duration" := c.previewDuration,
      "enable_preview" := c.enablePreview,
      "log_dir" := c.logDir
    ]
  }

  lemma ConfigFileNotPublic()
    ensures FieldNamed("_config_file").None?
  {
  }

  /** The `dict.get` default `from_dict` uses for a setting that is not
      numeric. */
  function PlainDefault(f: Field): Value
  {
    match f
    case Rules => VList([])
    case EnableTimeScheduler => VBool(false)
    case EnablePreview => VBool(true)
    case LogDir => VStr("logs")
    case _ => VNone
  }

  /** How `from_dict` reads one setting: a numeric one through `to_int`
      with its default, any other with `dict.get` and its default. */
  function ReadSetting(d: map<string, Value>, f: Field): Value
  {
    if IsNumeric(f) then VInt(ToInt(Get(d, Name(f), VNone), NumericDefault(f)))
    else Get(d, Name(f), PlainDefault(f))
  }

  /** `from_dict`: every setting read from the dictionary under its name. */
  function FromDict(d: map<string, Value>, configFile: Option<string>): MonitorConfigData
  {
    MonitorConfigData(
      ReadSetting(d, Rules),
      ReadSetting(d, MinNotifyInterval),
      ReadSetting(d, MaxNotifyInterval),
      ReadSetting(d, ConsecutiveFailLimit),
      ReadSetting(d, AutoStartTime),
      ReadSetting(d, AutoStopTime),
      ReadSetting(d, EnableTimeScheduler),
      ReadSetting(d, CaptureInterval),
      ReadSetting(d, PreviewDuration),
      ReadSetting(d, EnablePreview),
      ReadSetting(d, LogDir),
      configFile)
  }

  /** Each setting `from_dict` builds is read under its own name: an absent
      numeric setting takes its default, an integer is kept, and any other
      setting is the stored value or its `dict.get` default. */
  lemma FromDictReads(d: map<string, Value>, configFile: Option<string>, f: Field)
    ensures Attr(FromDict(d, configFile), f) == ReadSetting(d, f)
    ensures IsNumeric(f) && Name(f) !in d ==> Attr(FromDict(d, configFile), f) == VInt(NumericDefault(f))
    ensures IsNumeric(f) && Name(f) in d && d[Name(f)].VInt? ==> Attr(FromDict(d, configFile), f) == d[Name(f)]
    ensures !IsNumeric(f) ==> Attr(FromDict(d, configFile), f) == Get(d, Name(f), PlainDefault(f))
    ensures FromDict(d, configFile).configFile == configFile
  {
    var c := FromDict(d, configFile);
    match f
    case Rules =>
    case MinNotifyInterval =>
    case MaxNotifyInterval =>
    case ConsecutiveFailLimit =>
    case AutoStartTime =>
    case AutoStopTime =>
    case EnableTimeScheduler =>
    case CaptureInterval =>
    case PreviewDuration =>
    case EnablePreview =>
    case LogDir =>
  }

  function RuleValue(key: string, regexp: string): Value
  {
    VDict(map["key" := VStr(key), "regexp" := VStr(regexp)])
  }

  const DefaultRules: seq<Value> := [
    RuleValue("at_desk", "^true$"),
    RuleValue("is_study", "^true$"),
    RuleValue("activity", "^(看书|写字)$"),
    RuleValue("posture", "^(端正)$"),
    RuleValue("lighting", "^(充足|一般)$")
  ]

  /** `get_default`. */
  function GetDefault(): (c: MonitorConfigData)
    ensures c.rules.VList? && |c.rules.items| == 5
    ensures forall f :: IsNumeric(f) ==> Attr(c, f) == VInt(NumericDefault(f))
    ensures c.autoStartTime == VStr("09:00") && c.autoStopTime == VStr("18:00")
    ensures c.enableTimeScheduler == VBool(false) && c.enablePreview == VBool(true)
    ensures c.logDir == VStr("logs") && c.configFile == None
  {
    MonitorConfigData(VList(DefaultRules), VInt(10), VInt(60), VInt(5), VStr("09:00"), VStr("18:00"),
                      VBool(false), VInt(30), VInt(10), VBool(true), VStr("logs"), None)
  }

  /** Two configurations with the same settings and file are equal. */
  lemma SameSettings(a: MonitorConfigData, b: MonitorConfigData)
    requires forall f :: Attr(a, f) == Attr(b, f)
    requires a.configFile == b.configFile
    ensures a == b
  {
    assert Attr(a, Rules) == Attr(b, Rules) && Attr(a, LogDir) == Attr(b, LogDir);
    assert Attr(a, MinNotifyInterval) == Attr(b, MinNotifyInterval) && Attr(a, MaxNotifyInterval) == Attr(b, MaxNotifyInterval);
    assert Attr(a, ConsecutiveFailLimit) == Attr(b, ConsecutiveFailLimit) && Attr(a, CaptureInterval) == Attr(b, CaptureInterval);
    assert Attr(a, PreviewDuration) == Attr(b, PreviewDuration) && Attr(a, EnablePreview) == Attr(b, EnablePreview);
    assert Attr(a, AutoStartTime) == Attr(b, AutoStartTime) && Attr(a, AutoStopTime) == Attr(b, AutoStopTime);
    assert Attr(a, EnableTimeScheduler) == Attr(b, EnableTimeScheduler);
  }

  /** `from_dict(to_dict(c), f)` gives back every setting of `c` when its
      numeric settings hold integers. */
  lemma FromDictToDict(c: MonitorConfigData)
    requires forall f :: IsNumeric(f) ==> Attr(c, f).VInt?
    ensures FromDict(ToDict(c), c.configFile) == c
  {
    var d := ToDict(c);
    var r := FromDict(d, c.configFile);
    forall f
      ensures Attr(r, f) == Attr(c, f)
    {
      FromDictReads(d, c.configFile, f);
    }
    SameSettings(r, c);
  }

  /** `update`'s conversion of one value; None is the exception `int()` raises. */
  function Coerce(f: Field, value: Value): (r: Option<Value>)
    ensures IsNumeric(f) && (value == VNone || value == VStr("")) ==> r == Some(value)
    ensures IsNumeric(f) && value != VNone && value != VStr("") ==>
      (r.Some? <==> IntOf(value).Some?) && (r.Some? ==> r.value == VInt(IntOf(value).value))
    ensures IsBool(f) && value.VStr? ==> r == Some(VBool(Lower(value.s) in ["true", "1", "yes"]))
    ensures !IsNumeric(f) && !(IsBool(f) && value.VStr?) ==> r == Some(value)
  {
    if IsNumeric(f) then
      if value != VNone && value != VStr("") then
        match IntOf(value)
        case Some(i) => Some(VInt(i))
        case None => None
      else Some(value)
    else if IsBool(f) && value.VStr? then
      Some(VBool(Lower(value.s) in ["true", "1", "yes"]))
    else Some(value)
  }

  /** The methods of the class. `hasattr` finds them as well, so `update`
      stores a keyword so named as an instance attribute that hides the
      method from then on. */
  const MethodNames: set<string> := {"to_dict", "from_dict", "save", "update", "load", "get_default"}

  /** The new settings, the method names hidden so far, and whether the
      call raised. */
  datatype UpdateOutcome = UpdateOutcome(config: MonitorConfigData, shadowed: set<string>, failed: bool)

  /** The keyword loop of `update`, in order: a setting is converted and
      stored, a method name becomes an attribute hiding that method, any
      other key is ignored; a failing `int()` stops it with the earlier
      keywords already applied. */
  function Assign(c: MonitorConfigData, shadowed: set<string>, kwargs: seq<(string, Value)>): (u: UpdateOutcome)
    ensures u.config.configFile == c.configFile
    ensures shadowed <= u.shadowed <= shadowed + MethodNames
    ensures !u.failed ==> forall i :: 0 <= i < |kwargs| && kwargs[i].0 in MethodNames ==> kwargs[i].0 in u.shadowed
    decreases |kwargs|
  {
    if kwargs == [] then UpdateOutcome(c, shadowed, false)
    else
      var (key, value) := kwargs[0];
      var u :=
        if key in MethodNames then Assign(c, shadowed + {key}, kwargs[1..])
        else match FieldNamed(key)
          case None => Assign(c, shadowed, kwargs[1..])
          case Some(f) =>
            match Coerce(f, value)
            case None => UpdateOutcome(c, shadowed, true)
            case Some(v) => Assign(SetAttr(c, f, v), shadowed, kwargs[1..]);
      assert !u.failed ==> forall i :: 1 <= i < |kwargs| ==> kwargs[i] == kwargs[1..][i - 1];
      u
  }

  /** `save` raises when its own name, or with a config file set the
      `to_dict` it calls, holds a stored value instead of the method. */
  predicate SaveRaises(c: MonitorConfigData, shadowed: set<string>)
  {
    "save" in shadowed || (c.configFile.Some? && c.configFile.value != "" && "to_dict" in shadowed)
  }

  /** `update(**kwargs)`: calling it raises at once when `update` itself is
      hidden; otherwise the keyword loop runs and then `save`. `failed` is
      an exception from any of these. */
  function UpdateSpec(c: MonitorConfigData, shadowed: set<string>, kwargs: seq<(string, Value)>): (u: UpdateOutcome)
    ensures u.config.configFile == c.configFile
    ensures "update" in shadowed ==> u == UpdateOutcome(c, shadowed, true)
    ensures shadowed <= u.shadowed
    ensures !u.failed ==> forall i :: 0 <= i < |kwargs| && kwargs[i].0 in MethodNames ==> kwargs[i].0 in u.shadowed
    ensures "save" in u.shadowed ==> u.failed
    ensures (exists i :: 0 <= i < |kwargs| && kwargs[i].0 == "save") ==> u.failed
  {
    if "update" in shadowed then UpdateOutcome(c, shadowed, true)
    else
      var a := Assign(c, shadowed, kwargs);
      if a.failed then a else a.(failed := SaveRaises(a.config, a.shadowed))
  }

  /** In the keyword loop only the supplied settings change; keys that name
      no public setting (unknown, a method, or starting with "_") leave the
      settings alone. */
  lemma {:induction false} AssignChangesOnlySupplied(c: MonitorConfigData, shadowed: set<string>, kwargs: seq<(string, Value)>, g: Field)
    requires forall i :: 0 <= i < |kwargs| ==> kwargs[i].0 != Name(g)
    ensures Attr(Assign(c, shadowed, kwargs).config, g) == Attr(c, g)
    decreases |kwargs|
  {
    if kwargs != [] {
      var (key, value) := kwargs[0];
      forall i | 0 <= i < |kwargs| - 1 ensures kwargs[1..][i].0 != Name(g) { assert kwargs[1..][i] == kwargs[i + 1]; }
      if key in MethodNames {
        AssignChangesOnlySupplied(c, shadowed + {key}, kwargs[1..], g);
      } else {
        match FieldNamed(key)
        case None => AssignChangesOnlySupplied(c, shadowed, kwargs[1..], g);
        case Some(f) =>
          if Coerce(f, value).Some? {
            AssignChangesOnlySupplied(SetAttr(c, f, Coerce(f, value).value), shadowed, kwargs[1..], g);
          }
      }
    }
  }

  /** A keyword loop that runs to its end stores each supplied setting's
      converted value (keyword arguments are distinct), whether or not the
      `save` after it raises. */
  lemma {:induction false} AssignSetsSupplied(c: MonitorConfigData, shadowed: set<string>, kwargs: seq<(string, Value)>, i: int)
    requires 0 <= i < |kwargs| && FieldNamed(kwargs[i].0).Some?
    requires forall a, b :: 0 <= a < b < |kwargs| ==> kwargs[a].0 != kwargs[b].0
    requires !Assign(c, shadowed, kwargs).failed
    ensures Coerce(FieldNamed(kwargs[i].0).value, kwargs[i].1).Some?
    ensures Attr(Assign(c, shadowed, kwargs).config, FieldNamed(kwargs[i].0).value) ==
      Coerce(FieldNamed(kwargs[i].0).value, kwargs[i].1).value
    decreases |kwargs|
  {
    var (key, value) := kwargs[0];
    var rest := kwargs[1..];
    forall a, b | 0 <= a < b < |rest| ensures rest[a].0 != rest[b].0 {
      assert rest[a] == kwargs[a + 1] && rest[b] == kwargs[b + 1];
    }
    var next := if FieldNamed(key).Some? then SetAttr(c, FieldNamed(key).value, Coerce(FieldNamed(key).value, value).value) else c;
    var nextShadowed := if key in MethodNames then shadowed + {key} else shadowed;
    assert Assign(c, shadowed, kwargs) == Assign(next, nextShadowed, rest);
    if i == 0 {
      forall j | 0 <= j < |rest| ensures rest[j].0 != key { assert rest[j] == kwargs[j + 1]; }
      AssignChangesOnlySupplied(next, nextShadowed, rest, FieldNamed(key).value);
    } else {
      assert rest[i - 1] == kwargs[i];
      AssignSetsSupplied(next, nextShadowed, rest, i - 1);
    }
  }

  /** A `MonitorConfig` instance, whose settings `update` changes in place. */
  class MonitorConfig {
    var data: MonitorConfigData
    /** The method names an earlier `update` hid behind stored values. */
    var shadowed: set<string>

    constructor FromDictionary(d: map<string, Value>, configFile: Option<string>)
      ensures data == FromDict(d, configFile) && shadowed == {}
    {
      data := FromDict(d, configFile);
      shadowed := {};
    }

    constructor Default()
      ensures data == GetDefault() && shadowed == {}
    {
      data := GetDefault();
      shadowed := {};
    }

    /** `update(**kwargs)`: `failed` is the exception raised by calling a
        hidden `update`, by `int()`, or by a `save` whose method is hidden. */
    method Update(kwargs: seq<(string, Value)>) returns (failed: bool)
      modifies this
      ensures UpdateOutcome(data, shadowed, failed) == UpdateSpec(old(data), old(shadowed), kwargs)
    {
      if "update" in shadowed {
        return true;
      }
      var i := 0;
      while i < |kwargs|
        invariant 0 <= i <= |kwargs|
        invariant Assign(data, shadowed, kwargs[i..]) == Assign(old(data), old(shadowed), kwargs)
      {
        var (key, value) := kwargs[i];
        assert kwargs[i..][1..] == kwargs[i + 1..];
        var f := FieldNamed(key);
        if key in MethodNames {
          shadowed := shadowed + {key};
        } else if f.Some? {
          if IsNumeric(f.value) {
            if value != VNone && value != VStr("") {
              var n := IntOf(value);
              if n.None? {
                return true;
              }
              value := VInt(n.value);
            }
          } else if IsBool(f.value) {
            if value.VStr? {
              value := VBool(Lower(value.s) in ["true", "1", "yes"]);
            }
          }
          data := SetAttr(data, f.value, value);
        }
        i := i + 1;
      }
      return SaveRaises(data, shadowed);
    }
  }
}
