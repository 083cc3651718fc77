/** The rule checker of the monitoring service
    (src/monitor/simple_rule_checker.py): every `{key, regexp}` rule is
    matched against the analysis map, start-anchored and case-insensitively,
    and the result collects the passed keys in rule order and the failed keys
    with a message. The regular-expression engine is a parameter: `compiles`
    says whether `re.compile` accepts a pattern, `matcher` is
    `re.match(pattern, value, re.IGNORECASE)`. */
module RuleCheck {
  import opened Common

  /** A rule as read from the configuration: a string-to-string dict. */
  type Rule = map<string, string>

  datatype MatchOutcome = Matched | NoMatch | PatternError

  type Matcher = (string, string) -> MatchOutcome

  datatype RuleCheckResult = RuleCheckResult(
    isValid: bool,
    failedFields: map<string, string>,
    passedFields: seq<string>,
    rawAnalysis: map<string, Value>)

  /** `check` either returns a result or raises KeyError when a rule lacks
      "key" or "regexp" (possible after a rejected `update_rules`). */
  datatype CheckOutcome = Checked(result: RuleCheckResult) | RuleKeyError

  /** What one rule says about the analysis. */
  datatype Verdict = Pass | Fail(message: string)

  /** The passed and failed fields collected so far. */
  datatype Tally = Tally(failed: map<string, string>, passed: seq<string>)

  predicate HasFields(rule: Rule)
  {
    "key" in rule && "regexp" in rule
  }

  predicate AllHaveFields(rules: seq<Rule>)
  {
    forall i :: 0 <= i < |rules| ==> HasFields(rules[i])
  }

  /** `_get_friendly_message`: the key and the value it had. */
  function FriendlyMessage(key: string, value: Option<string>): (m: string)
    ensures value.None? ==> m == key + ": None"
    ensures value.Some? ==> m == key + ": " + value.value
  {
    key + ": " + (if value.Some? then value.value else "None")
  }

  /** The verdict of one well-formed rule. */
  function RuleVerdict(rule: Rule, analysis: map<string, Value>, matcher: Matcher): (v: Verdict)
    requires HasFields(rule)
    ensures rule["key"] !in analysis ==> v == Fail(rule["key"] + ": None")
    ensures rule["key"] in analysis ==>
      (v == Pass <==> matcher(rule["regexp"], PyStr(analysis[rule["key"]])) == Matched)
  {
    var key := rule["key"];
    var regexp := rule["regexp"];
    if key !in analysis then Fail(FriendlyMessage(key, None))
    else
      var value := PyStr(analysis[key]);
      match matcher(regexp, value)
      case Matched => Pass
      case NoMatch => Fail(FriendlyMessage(key, Some(value)))
      case PatternError => Fail("规则配置错误: " + regexp)
  }

  /** One iteration of the loop in `check`. */
  function Step(t: Tally, rule: Rule, analysis: map<string, Value>, matcher: Matcher): Tally
    requires HasFields(rule)
  {
    match RuleVerdict(rule, analysis, matcher)
    case Pass => Tally(t.failed, t.passed + [rule["key"]])
    case Fail(m) => Tally(t.failed[rule["key"] := m], t.passed)
  }

  /** The loop in `check`, from a given tally; None is the KeyError raised
      by the first rule that lacks a field. */
  function Fold(t: Tally, rules: seq<Rule>, analysis: map<string, Value>, matcher: Matcher): Option<Tally>
    decreases |rules|
  {
    if rules == [] then Some(t)
    else if !HasFields(rules[0]) then None
    else Fold(Step(t, rules[0], analysis, matcher), rules[1..], analysis, matcher)
  }

  /** The whole of `check` as a function of the rules and the analysis. */
  function CheckSpec(rules: seq<Rule>, analysis: map<string, Value>, matcher: Matcher): CheckOutcome
  {
    match Fold(Tally(map[], []), rules, analysis, matcher)
    case None => RuleKeyError
    case Some(t) => Checked(RuleCheckResult(|t.failed| == 0, t.failed, t.passed, analysis))
  }

  /** The keys of the passing rules, in rule order. */
  function PassedKeys(rules: seq<Rule>, analysis: map<string, Value>, matcher: Matcher): seq<string>
    requires AllHaveFields(rules)
  {
    if rules == [] then []
    else
      (if RuleVerdict(rules[0], analysis, matcher) == Pass then [rules[0]["key"]] else [])
      + PassedKeys(rules[1..], analysis, matcher)
  }

  /** Rule `i` fails and no later rule with the same key fails: its message
      is the one left in `failed_fields`. */
  predicate LastFailure(rules: seq<Rule>, analysis: map<string, Value>, matcher: Matcher, i: int)
    requires AllHaveFields(rules)
  {
    0 <= i < |rules| && RuleVerdict(rules[i], analysis, matcher).Fail? &&
    forall j :: i < j < |rules| && rules[j]["key"] == rules[i]["key"] ==> RuleVerdict(rules[j], analysis, matcher) == Pass
  }

  /** `check` raises KeyError exactly when some rule lacks "key" or "regexp". */
  lemma {:induction false} FoldFailsIffMalformed(t: Tally, rules: seq<Rule>, analysis: map<string, Value>, matcher: Matcher)
    ensures Fold(t, rules, analysis, matcher).None? <==> !AllHaveFields(rules)
    decreases |rules|
  {
    if rules != [] && HasFields(rules[0]) {
      FoldFailsIffMalformed(Step(t, rules[0], analysis, matcher), rules[1..], analysis, matcher);
      assert AllHaveFields(rules) <==> AllHaveFields(rules[1..]) by {
        if AllHaveFields(rules[1..]) {
          forall i | 0 <= i < |rules| ensures HasFields(rules[i]) {
            if i > 0 { assert rules[i] == rules[1..][i - 1]; }
          }
        }
      }
    }
  }

  lemma TailHasFields(rules: seq<Rule>)
    requires AllHaveFields(rules) && rules != []
    ensures AllHaveFields(rules[1..])
  {
    forall i | 0 <= i < |rules| - 1 ensures HasFields(rules[1..][i]) { assert rules[1..][i] == rules[i + 1]; }
  }

  /** The loop visits every rule: the passed keys are exactly those of the
      passing rules, in rule order. */
  lemma {:induction false} FoldPassed(t: Tally, rules: seq<Rule>, analysis: map<string, Value>, matcher: Matcher)
    requires AllHaveFields(rules)
    ensures Fold(t, rules, analysis, matcher).Some?
    ensures Fold(t, rules, analysis, matcher).value.passed == t.passed + PassedKeys(rules, analysis, matcher)
    decreases |rules|
  {
    if rules != [] {
      TailHasFields(rules);
      FoldPassed(Step(t, rules[0], analysis, matcher), rules[1..], analysis, matcher);
    }
  }

  /** A key is failed exactly when some rule with that key fails (or it was
      failed already). */
  lemma {:induction false} FoldFailedKeys(t: Tally, rules: seq<Rule>, analysis: map<string, Value>, matcher: Matcher, k: string)
    requires AllHaveFields(rules)
    ensures Fold(t, rules, analysis, matcher).Some?
    ensures k in Fold(t, rules, analysis, matcher).value.failed <==>
      k in t.failed || exists i :: 0 <= i < |rules| && rules[i]["key"] == k && RuleVerdict(rules[i], analysis, matcher).Fail?
    decreases |rules|
  {
    if rules != [] {
      var rest := rules[1..];
      TailHasFields(rules);
      FoldFailedKeys(Step(t, rules[0], analysis, matcher), rest, analysis, matcher, k);
      if exists i :: 0 <= i < |rest| && rest[i]["key"] == k && RuleVerdict(rest[i], analysis, matcher).Fail? {
        var i :| 0 <= i < |rest| && rest[i]["key"] == k && RuleVerdict(rest[i], analysis, matcher).Fail?;
        assert rules[i + 1] == rest[i];
      }
      if exists i :: 0 <= i < |rules| && rules[i]["key"] == k && RuleVerdict(rules[i], analysis, matcher).Fail? {
        var i :| 0 <= i < |rules| && rules[i]["key"] == k && RuleVerdict(rules[i], analysis, matcher).Fail?;
        if i > 0 { assert rest[i - 1] == rules[i]; }
      }
    }
  }

  /** A failed key carries the message of the last rule with that key that
      failed. */
  lemma {:induction false} FoldLastMessage(t: Tally, rules: seq<Rule>, analysis: map<string, Value>, matcher: Matcher, i: int)
    requires AllHaveFields(rules) && LastFailure(rules, analysis, matcher, i)
    ensures Fold(t, rules, analysis, matcher).Some?
    ensures rules[i]["key"] in Fold(t, rules, analysis, matcher).value.failed
    ensures Fold(t, rules, analysis, matcher).value.failed[rules[i]["key"]] == RuleVerdict(rules[i], analysis, matcher).message
    decreases |rules|
  {
    var k := rules[i]["key"];
    var rest := rules[1..];
    TailHasFields(rules);
    var t' := Step(t, rules[0], analysis, matcher);
    if i == 0 {
      forall j | 0 <= j < |rest| && rest[j]["key"] == k
        ensures RuleVerdict(rest[j], analysis, matcher) == Pass
      {
        assert rest[j] == rules[j + 1];
      }
      FoldKeepsUnfailed(t', rest, analysis, matcher, k);
    } else {
      assert rest[i - 1] == rules[i];
      forall j | i - 1 < j < |rest| && rest[j]["key"] == rest[i - 1]["key"]
        ensures RuleVerdict(rest[j], analysis, matcher) == Pass
      {
        assert rest[j] == rules[j + 1];
      }
      FoldLastMessage(t', rest, analysis, matcher, i - 1);
    }
  }

  /** A key that no remaining rule fails keeps its message. */
  lemma {:induction false} FoldKeepsUnfailed(t: Tally, rules: seq<Rule>, analysis: map<string, Value>, matcher: Matcher, k: string)
    requires AllHaveFields(rules) && k in t.failed
    requires forall j :: 0 <= j < |rules| && rules[j]["key"] == k ==> RuleVerdict(rules[j], analysis, matcher) == Pass
    ensures Fold(t, rules, analysis, matcher).Some?
    ensures k in Fold(t, rules, analysis, matcher).value.failed
    ensures Fold(t, rules, analysis, matcher).value.failed[k] == t.failed[k]
    decreases |rules|
  {
    if rules != [] {
      var rest := rules[1..];
      TailHasFields(rules);
      forall j | 0 <= j < |rest| && rest[j]["key"] == k
        ensures RuleVerdict(rest[j], analysis, matcher) == Pass
      {
        assert rest[j] == rules[j + 1];
      }
      FoldKeepsUnfailed(Step(t, rules[0], analysis, matcher), rest, analysis, matcher, k);
    }
  }

  /** A key absent from the analysis ends up failed with "key: None" once
      any rule names it. */
  lemma {:induction false} FoldMissingKey(t: Tally, rules: seq<Rule>, analysis: map<string, Value>, matcher: Matcher, k: string)
    requires AllHaveFields(rules) && k !in analysis
    requires (k in t.failed && t.failed[k] == k + ": None") || exists i :: 0 <= i < |rules| && rules[i]["key"] == k
    ensures Fold(t, rules, analysis, matcher).Some?
    ensures k in Fold(t, rules, analysis, matcher).value.failed
    ensures Fold(t, rules, analysis, matcher).value.failed[k] == k + ": None"
    decreases |rules|
  {
    if rules != [] {
      var rest := rules[1..];
      TailHasFields(rules);
      var t' := Step(t, rules[0], analysis, matcher);
      if !(k in t'.failed && t'.failed[k] == k + ": None") {
        var i :| 0 <= i < |rules| && rules[i]["key"] == k;
        assert i > 0;
        assert rest[i - 1] == rules[i];
      }
      FoldMissingKey(t', rest, analysis, matcher, k);
    }
  }

  /** The result is valid exactly when every rule passes; the raw analysis is
      the input map. */
  lemma CheckValidIff(rules: seq<Rule>, analysis: map<string, Value>, matcher: Matcher)
    requires AllHaveFields(rules)
    ensures CheckSpec(rules, analysis, matcher).Checked?
    ensures CheckSpec(rules, analysis, matcher).result.rawAnalysis == analysis
    ensures CheckSpec(rules, analysis, matcher).result.isValid <==>
      forall i :: 0 <= i < |rules| ==> RuleVerdict(rules[i], analysis, matcher) == Pass
  {
    var t0 := Tally(map[], []);
    FoldPassed(t0, rules, analysis, matcher);
    var r := CheckSpec(rules, analysis, matcher).result;
    if !r.isValid {
      var k :| k in r.failedFields;
      FoldFailedKeys(t0, rules, analysis, matcher, k);
    } else {
      assert r.failedFields == map[];
      forall i | 0 <= i < |rules| ensures RuleVerdict(rules[i], analysis, matcher) == Pass {
        FoldFailedKeys(t0, rules, analysis, matcher, rules[i]["key"]);
      }
    }
  }

  /** A key absent from the analysis is always a failure with "key: None",
      and never a passed key. */
  lemma MissingKeyFails(rules: seq<Rule>, analysis: map<string, Value>, matcher: Matcher, i: int)
    requires AllHaveFields(rules) && 0 <= i < |rules| && rules[i]["key"] !in analysis
    ensures CheckSpec(rules, analysis, matcher).Checked?
    ensures rules[i]["key"] in CheckSpec(rules, analysis, matcher).result.failedFields
    ensures rules[i]["key"] !in CheckSpec(rules, analysis, matcher).result.passedFields
    ensures CheckSpec(rules, analysis, matcher).result.failedFields[rules[i]["key"]] == rules[i]["key"] + ": None"
  {
    var k := rules[i]["key"];
    var t0 := Tally(map[], []);
    FoldPassed(t0, rules, analysis, matcher);
    FoldMissingKey(t0, rules, analysis, matcher, k);
    PassedKeysFrom(rules, analysis, matcher, k);
  }

  /** Every passed key is the key of a rule that passed. */
  lemma {:induction false} PassedKeysFrom(rules: seq<Rule>, analysis: map<string, Value>, matcher: Matcher, k: string)
    requires AllHaveFields(rules)
    ensures k in PassedKeys(rules, analysis, matcher) ==>
      exists i :: 0 <= i < |rules| && rules[i]["key"] == k && RuleVerdict(rules[i], analysis, matcher) == Pass
  {
    if rules != [] {
      var rest := rules[1..];
      assert AllHaveFields(rest) by {
        forall i | 0 <= i < |rest| ensures HasFields(rest[i]) { assert rest[i] == rules[i + 1]; }
      }
      PassedKeysFrom(rest, analysis, matcher, k);
      if k in PassedKeys(rest, analysis, matcher) {
        var i :| 0 <= i < |rest| && rest[i]["key"] == k && RuleVerdict(rest[i], analysis, matcher) == Pass;
        assert rules[i + 1] == rest[i];
      }
    }
  }

  class SimpleRuleChecker {
    var rules: seq<Rule>

    /** The constructor stores the rules; `NewRuleChecker` adds the
        validation the Python constructor runs. */
    constructor (rules: seq<Rule>)
      ensures this.rules == rules
    {
      this.rules := rules;
    }

    /** `_validate_rules`: the index of the first rule that lacks a field or
        whose pattern does not compile (the ValueError), or None. */
    method ValidateRules(compiles: string -> bool) returns (bad: Option<nat>)
      ensures bad.None? <==> forall i :: 0 <= i < |rules| ==> HasFields(rules[i]) && compiles(rules[i]["regexp"])
      ensures bad.Some? ==> bad.value < |rules| && !(HasFields(rules[bad.value]) && compiles(rules[bad.value]["regexp"]))
      ensures bad.Some? ==> forall i :: 0 <= i < bad.value ==> HasFields(rules[i]) && compiles(rules[i]["regexp"])
    {
      var i := 0;
      while i < |rules|
        invariant 0 <= i <= |rules|
        invariant forall j :: 0 <= j < i ==> HasFields(rules[j]) && compiles(rules[j]["regexp"])
      {
        var rule := rules[i];
        if !("key" in rule && "regexp" in rule) {
          return Some(i);
        }
        if !compiles(rule["regexp"]) {
          return Some(i);
        }
        i := i + 1;
      }
      return None;
    }

    /** `check`: visits every rule, collecting passed keys and failure
        messages; changes nothing. */
    method Check(analysis: map<string, Value>, matcher: Matcher) returns (out: CheckOutcome)
      ensures out == CheckSpec(rules, analysis, matcher)
    {
      var failed: map<string, string> := map[];
      var passed: seq<string> := [];
      var i := 0;
      while i < |rules|
        invariant 0 <= i <= |rules|
        invariant Fold(Tally(failed, passed), rules[i..], analysis, matcher) == Fold(Tally(map[], []), rules, analysis, matcher)
      {
        var rule := rules[i];
        if !("key" in rule && "regexp" in rule) {
          return RuleKeyError;
        }
        var key := rule["key"];
        var regexp := rule["regexp"];
        assert rules[i..][1..] == rules[i + 1..];
        if key !in analysis {
          failed := failed[key := FriendlyMessage(key, None)];
        } else {
          var value := PyStr(analysis[key]);
          var m := matcher(regexp, value);
          if m == Matched {
            passed := passed + [key];
          } else if m == NoMatch {
            failed := failed[key := FriendlyMessage(key, Some(value))];
          } else {
            failed := failed[key := "规则配置错误: " + regexp];
          }
        }
        i := i + 1;
      }
      assert rules[i..] == [];
      var isValid := |failed| == 0;
      return Checked(RuleCheckResult(isValid, failed, passed, analysis));
    }

    /** `update_rules`: the new rules replace the old ones before they are
        validated, so a rejected list is already in place when the
        ValueError (Some index) is reported. */
    method UpdateRules(newRules: seq<Rule>, compiles: string -> bool) returns (bad: Option<nat>)
      modifies this`rules
      ensures rules == newRules
      ensures bad.None? <==> forall i :: 0 <= i < |newRules| ==> HasFields(newRules[i]) && compiles(newRules[i]["regexp"])
    {
      rules := newRules;
      bad := ValidateRules(compiles);
    }
  }

  /** The Python constructor: store, then validate; a ValueError yields None. */
  method NewRuleChecker(rules: seq<Rule>, compiles: string -> bool) returns (c: Option<SimpleRuleChecker>)
    ensures c.Some? <==> forall i :: 0 <= i < |rules| ==> HasFields(rules[i]) && compiles(rules[i]["regexp"])
    ensures c.Some? ==> fresh(c.value) && c.value.rules == rules
  {
    var checker := new SimpleRuleChecker(rules);
    var bad := checker.ValidateRules(compiles);
    if bad.Some? {
      return None;
    }
    return Some(checker);
  }
}
