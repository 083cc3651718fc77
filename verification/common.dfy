/** Shared vocabulary of the model: optional values, the dynamically typed
    values that flow through the Python code as JSON, Python's truthiness,
    equality and `str()`, decimal integers, and the string operations the
    source uses (`startswith`, `in`, `split`, `strip`, `lower`). */
module Common {

  datatype Option<+T> = None | Some(value: T)

  /** A JSON-like Python value, as held by analysis results, config
      dictionaries and keyword arguments. Floats are carried by their
      `str()` text. */
  datatype Value =
    | VNone
    | VBool(b: bool)
    | VInt(i: int)
    | VFloat(text: string)
    | VStr(s: string)
    | VList(items: seq<Value>)
    | VDict(entries: map<string, Value>)

  /** `dict.get(key, default)`. */
  function Get(m: map<string, Value>, key: string, default: Value): (v: Value)
    ensures key in m ==> v == m[key]
    ensures key !in m ==> v == default
  {
    if key in m then m[key] else default
  }

  /** Python truthiness (`if x:`). */
  predicate Truthy(v: Value)
  {
    match v
    case VNone => false
    case VBool(b) => b
    case VInt(i) => i != 0
    case VFloat(t) => t != "0.0" && t != "-0.0"
    case VStr(s) => s != ""
    case VList(items) => items != []
    case VDict(entries) => entries != map[]
  }

  /** The integer a bool or int stands for; Python's `bool` is a subclass of `int`. */
  function NumberOf(v: Value): Option<int>
  {
    match v
    case VBool(b) => Some(if b then 1 else 0)
    case VInt(i) => Some(i)
    case _ => None
  }

  /** Python `==` on values: `True == 1` and `False == 0`, otherwise structural. */
  predicate PyEq(a: Value, b: Value)
  {
    if NumberOf(a).Some? && NumberOf(b).Some? then NumberOf(a) == NumberOf(b) else a == b
  }

  /** A bool equals exactly the int it stands for; a value of any other
      kind equals only itself; and `==` is an equivalence on values. */
  lemma PyEqRule(a: Value, b: Value, c: Value)
    ensures a.VBool? && b.VInt? ==> (PyEq(a, b) <==> b.i == if a.b then 1 else 0)
    ensures !(a.VBool? || a.VInt?) ==> (PyEq(a, b) <==> a == b)
    ensures PyEq(a, a) && (PyEq(a, b) <==> PyEq(b, a))
    ensures PyEq(a, b) && PyEq(b, c) ==> PyEq(a, c)
  {
  }

  /** Python `str(v)`. A list shows its items' `repr` (strings in single
      quotes); a dict, or a container nested inside a list, is shown as
      `{…}` or `[…]`. */
  function PyStr(v: Value): (s: string)
    ensures v.VStr? ==> s == v.s
    ensures v.VNone? ==> s == "None"
    ensures v.VBool? ==> s == (if v.b then "True" else "False")
  {
    match v
    case VList(items) => "[" + ReprItems(items) + "]"
    case VDict(_) => "{…}"
    case _ => ScalarStr(v)
  }

  function ScalarStr(v: Value): string
  {
    match v
    case VNone => "None"
    case VBool(b) => if b then "True" else "False"
    case VInt(i) => IntToString(i)
    case VFloat(t) => t
    case VStr(s) => s
    case VList(_) => "[…]"
    case VDict(_) => "{…}"
  }

  function ReprItems(items: seq<Value>): string
  {
    if items == [] then ""
    else
      var first := if items[0].VStr? then "'" + items[0].s + "'" else ScalarStr(items[0]);
      if |items| == 1 then first else first + ", " + ReprItems(items[1..])
  }

  // ---------------------------------------------------------------------------
  // Decimal integers

  predicate IsDigit(c: char) { '0' <= c <= '9' }

  predicate AllDigits(s: string) { forall i :: 0 <= i < |s| ==> IsDigit(s[i]) }

  function DigitChar(d: nat): char
    requires d < 10
  {
    "0123456789"[d]
  }

  function NatToString(n: nat): (s: string)
    ensures |s| > 0 && AllDigits(s)
  {
    if n < 10 then [DigitChar(n)] else NatToString(n / 10) + [DigitChar(n % 10)]
  }

  /** Python `str(i)` for an integer. */
  function IntToString(i: int): string
  {
    if i < 0 then "-" + NatToString(-i) else NatToString(i)
  }

  function DigitsValue(s: string): nat
    requires AllDigits(s)
  {
    if s == [] then 0 else DigitsValue(s[..|s| - 1]) * 10 + (s[|s| - 1] - '0') as nat
  }

  lemma {:induction false} DigitsOfNat(n: nat)
    ensures DigitsValue(NatToString(n)) == n
  {
    var s := NatToString(n);
    if n >= 10 {
      DigitsOfNat(n / 10);
      assert s[..|s| - 1] == NatToString(n / 10);
    }
  }

  /** `n` in decimal, left-padded with zeros to at least `width` digits
      (`%02d`, `%04d`). */
  function ZeroPad(n: nat, width: nat): (s: string)
    ensures AllDigits(s) && |s| >= width && |s| >= 1
    ensures |NatToString(n)| <= width ==> |s| == width
    decreases width
  {
    if |NatToString(n)| >= width then NatToString(n) else "0" + ZeroPad(n, width - 1)
  }

  lemma NatToStringShort(n: nat, width: nat)
    requires n < Pow10(width) && width >= 1
    ensures |NatToString(n)| <= width
    decreases width
  {
    if n >= 10 {
      NatToStringShort(n / 10, width - 1);
    }
  }

  function Pow10(k: nat): nat
  {
    if k == 0 then 1 else 10 * Pow10(k - 1)
  }

  /** A wall-clock reading, as `datetime.now()` gives it. */
  datatype DateTime = DateTime(year: nat, month: nat, day: nat, hour: nat, minute: nat, second: nat)

  predicate ValidDateTime(t: DateTime)
  {
    1 <= t.year <= 9999 && 1 <= t.month <= 12 && 1 <= t.day <= 31 &&
    t.hour < 24 && t.minute < 60 && t.second < 60
  }

  /** Python `int(s)` on a string: optional surrounding whitespace, an optional
      sign, then at least one decimal digit; anything else is a ValueError (None). */
  function ParseInt(s: string): (r: Option<int>)
    ensures r.Some? ==> Trim(s) != ""
  {
    var t := Trim(s);
    if t != [] && (t[0] == '-' || t[0] == '+') then
      var body := t[1..];
      if body != [] && AllDigits(body) then
        Some(if t[0] == '-' then -(DigitsValue(body) as int) else DigitsValue(body) as int)
      else None
    else if t != [] && AllDigits(t) then Some(DigitsValue(t) as int)
    else None
  }

  /** `int(str(i)) == i`. */
  lemma ParseIntRoundTrip(i: int)
    ensures ParseInt(IntToString(i)) == Some(i)
  {
    var s := IntToString(i);
    TrimNoSpace(s);
    if i < 0 {
      DigitsOfNat(-i);
      assert s[1..] == NatToString(-i);
    } else {
      DigitsOfNat(i);
    }
  }

  // ---------------------------------------------------------------------------
  // Strings

  predicate StartsWith(s: string, prefix: string)
  {
    |prefix| <= |s| && s[..|prefix|] == prefix
  }

  /** Python `sub in s`. */
  predicate Contains(s: string, sub: string)
    decreases |s|
  {
    StartsWith(s, sub) || (|s| > 0 && Contains(s[1..], sub))
  }

  lemma {:induction false} ContainsAt(s: string, sub: string, i: nat)
    requires i + |sub| <= |s| && s[i..i + |sub|] == sub
    ensures Contains(s, sub)
    decreases i
  {
    if i > 0 {
      ContainsAt(s[1..], sub, i - 1);
      assert s[1..][i - 1..i - 1 + |sub|] == s[i..i + |sub|];
    }
  }

  /** The ASCII whitespace characters; Python's `str.strip()` also removes
      the Unicode ones (U+0085, U+00A0, U+3000 and others), which this model
      keeps. */
  predicate IsSpace(c: char)
  {
    c == ' ' || c == '\t' || c == '\n' || c == '\r' || c == '\U{B}' || c == '\U{C}'
  }

  function TrimLeft(s: string): (r: string)
    ensures |r| <= |s| && (r != [] ==> !IsSpace(r[0]))
    ensures r == s[|s| - |r|..]
  {
    if s != [] && IsSpace(s[0]) then TrimLeft(s[1..]) else s
  }

  function TrimRight(s: string): (r: string)
    ensures |r| <= |s| && (r != [] ==> !IsSpace(r[|r| - 1]))
    ensures r == s[..|r|]
  {
    if s != [] && IsSpace(s[|s| - 1]) then TrimRight(s[..|s| - 1]) else s
  }

  /** Python `s.strip()`. */
  function Trim(s: string): (r: string)
  {
    TrimRight(TrimLeft(s))
  }

  lemma TrimProperties(s: string)
    ensures |Trim(s)| <= |s|
    ensures Trim(s) != [] ==> !IsSpace(Trim(s)[0]) && !IsSpace(Trim(s)[|Trim(s)| - 1])
  {
    var l := TrimLeft(s);
    var r := TrimRight(l);
    if r != [] {
      assert r[0] == l[0];
    }
  }

  lemma TrimNoSpace(s: string)
    requires forall i :: 0 <= i < |s| ==> !IsSpace(s[i])
    ensures Trim(s) == s
  {
  }

  /** ASCII `str.lower()`. */
  function Lower(s: string): (r: string)
    ensures |r| == |s|
  {
    if s == [] then []
    else [if 'A' <= s[0] <= 'Z' then (s[0] as int + 32) as char else s[0]] + Lower(s[1..])
  }

  /** Python `s.split(sep)` for a one-character separator. */
  function Split(s: string, sep: char): (parts: seq<string>)
    ensures |parts| >= 1
  {
    if s == [] then [""]
    else if s[0] == sep then [""] + Split(s[1..], sep)
    else
      var rest := Split(s[1..], sep);
      [[s[0]] + rest[0]] + rest[1..]
  }

  /** Python `sep.join(parts)` for a one-character separator. */
  function Join(parts: seq<string>, sep: char): string
  {
    if parts == [] then "" else if |parts| == 1 then parts[0] else parts[0] + [sep] + Join(parts[1..], sep)
  }

  /** No part of a split holds the separator. */
  lemma {:induction false} SplitPartsFree(s: string, sep: char)
    ensures forall k :: 0 <= k < |Split(s, sep)| ==> Lacks(Split(s, sep)[k], sep)
  {
    if s != [] {
      SplitPartsFree(s[1..], sep);
    }
  }

  /** Joining behind an empty first part puts a separator in front. */
  lemma JoinEmptyFirst(rest: seq<string>, sep: char)
    requires |rest| >= 1
    ensures Join([""] + rest, sep) == [sep] + Join(rest, sep)
  {
    var parts := [""] + rest;
    assert parts[1..] == rest;
    assert parts[0] + [sep] + Join(rest, sep) == [sep] + Join(rest, sep);
  }

  /** Joining with a character glued to the first part puts that character
      in front. */
  lemma JoinGlued(c: char, rest: seq<string>, sep: char)
    requires |rest| >= 1
    ensures Join([[c] + rest[0]] + rest[1..], sep) == [c] + Join(rest, sep)
  {
    var parts := [[c] + rest[0]] + rest[1..];
    assert parts[1..] == rest[1..];
    if |rest| > 1 {
      assert ([c] + rest[0]) + [sep] + Join(rest[1..], sep) == [c] + (rest[0] + [sep] + Join(rest[1..], sep));
    }
  }

  /** Joining the parts of a split gives back the string. */
  lemma {:induction false} SplitJoin(s: string, sep: char)
    ensures Join(Split(s, sep), sep) == s
  {
    if s != [] {
      var rest := Split(s[1..], sep);
      SplitJoin(s[1..], sep);
      if s[0] == sep {
        JoinEmptyFirst(rest, sep);
      } else {
        JoinGlued(s[0], rest, sep);
      }
      assert [s[0]] + s[1..] == s;
    }
  }

  /** The stripped, non-empty parts of a `|`-separated list, in order:
      `[u.strip() for u in s.split("|") if u.strip()]`. */
  function CleanParts(parts: seq<string>): (users: seq<string>)
    ensures |users| <= |parts|
  {
    if parts == [] then []
    else
      var t := Trim(parts[0]);
      (if t != "" then [t] else []) + CleanParts(parts[1..])
  }

  /** Every cleaned part is non-empty and already stripped. */
  lemma {:induction false} CleanPartsStripped(parts: seq<string>)
    ensures forall k :: 0 <= k < |CleanParts(parts)| ==>
      CleanParts(parts)[k] != "" && Trim(CleanParts(parts)[k]) == CleanParts(parts)[k]
  {
    if parts != [] {
      CleanPartsStripped(parts[1..]);
      TrimIdempotent(parts[0]);
      var t := Trim(parts[0]);
      var head := if t != "" then [t] else [];
      assert CleanParts(parts) == head + CleanParts(parts[1..]);
    }
  }

  lemma TrimIdempotent(s: string)
    ensures Trim(Trim(s)) == Trim(s)
  {
    var t := Trim(s);
    TrimProperties(s);
    if t != [] {
      assert !IsSpace(t[0]);
      assert TrimLeft(t) == t;
      assert TrimRight(t) == t;
    }
  }

  function Recipients(s: string): (users: seq<string>)
  {
    CleanParts(Split(s, '|'))
  }

  /** Every recipient is non-empty, already stripped and free of `|`. */
  lemma RecipientsWellFormed(s: string)
    ensures forall k :: 0 <= k < |Recipients(s)| ==>
      Recipients(s)[k] != "" && Trim(Recipients(s)[k]) == Recipients(s)[k] && Lacks(Recipients(s)[k], '|')
  {
    SplitPartsFree(s, '|');
    CleanPartsStripped(Split(s, '|'));
    CleanPartsFree(Split(s, '|'), '|');
  }

  /** `c not in s`. */
  predicate Lacks(s: string, c: char)
  {
    forall j :: 0 <= j < |s| ==> s[j] != c
  }

  lemma TrimKeepsOnly(s: string, c: char)
    requires Lacks(s, c)
    ensures Lacks(Trim(s), c)
  {
    var l := TrimLeft(s);
    assert l == s[|s| - |l|..];
    var r := TrimRight(l);
    assert r == l[..|r|];
  }

  lemma {:induction false} CleanPartsFree(parts: seq<string>, sep: char)
    requires forall k :: 0 <= k < |parts| ==> Lacks(parts[k], sep)
    ensures forall k :: 0 <= k < |CleanParts(parts)| ==> Lacks(CleanParts(parts)[k], sep)
  {
    if parts != [] {
      var tail := parts[1..];
      CleanPartsFree(tail, sep);
      TrimKeepsOnly(parts[0], sep);
      var t := Trim(parts[0]);
      var head := if t != "" then [t] else [];
      assert CleanParts(parts) == head + CleanParts(tail);
    }
  }
}
