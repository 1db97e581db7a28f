/** Python-level values the controller handles: decoded JSON documents, the
    exceptions the interpreter raises, truthiness, `dict.get`, `in` and `int()`. */
module Values {

  datatype Option<T> = None | Some(value: T)

  /** Either a value or the exception that a Python expression raised. */
  datatype Result<T> = Ok(value: T) | Err(error: Exc)

  newtype byte = x: int | 0 <= x < 256

  /** The exception classes whose handlers the controller distinguishes. */
  datatype ExcKind = ValueError | TypeError | AttributeError | NameError | OSError | OtherError

  /** A raised exception: its class and its `str()` text. */
  datatype Exc = Error(kind: ExcKind, text: string)

  /** A decoded JSON document. Python's `None` and JSON `null` are the same value, `JNull`. */
  datatype Json =
    | JNull
    | JBool(b: bool)
    | JInt(i: int)
    | JStr(s: string)
    | JArray(items: seq<Json>)
    | JObject(fields: map<string, Json>)

  /** The name Python reports for the type of a decoded value. */
  function TypeName(j: Json): string
  {
    match j
    case JNull => "NoneType"
    case JBool(_) => "bool"
    case JInt(_) => "int"
    case JStr(_) => "str"
    case JArray(_) => "list"
    case JObject(_) => "dict"
  }

  /** Python truthiness (`if x:`). */
  predicate Truthy(j: Json)
  {
    match j
    case JNull => false
    case JBool(b) => b
    case JInt(i) => i != 0
    case JStr(s) => s != ""
    case JArray(items) => items != []
    case JObject(fields) => fields != map[]
  }

  /** `d.get(key, default)` on a dict; `d.get(key)` is `GetOr(d, key, JNull)`. */
  function GetOr(fields: map<string, Json>, key: string, default: Json): (r: Json)
    ensures key in fields ==> r == fields[key]
    ensures key !in fields ==> r == default
  {
    if key in fields then fields[key] else default
  }

  // ---------------------------------------------------------------------------
  // Decimal text: str(n) and int(s)

  predicate IsDigit(c: char) { '0' <= c <= '9' }

  /** The characters MicroPython skips around an integer literal. */
  predicate IsSpace(c: char) { c == ' ' || 9 <= c as int <= 13 }

  function DigitChar(d: nat): char
    requires d < 10
  {
    "0123456789"[d]
  }

  function DigitValue(c: char): nat
    requires IsDigit(c)
  {
    (c as int - '0' as int) as nat
  }

  predicate AllDigits(s: string)
  {
    forall i :: 0 <= i < |s| ==> IsDigit(s[i])
  }

  /** The number written by a string of decimal digits, most significant first. */
  function DigitsValue(s: string): nat
    requires AllDigits(s)
  {
    if s == [] then 0 else DigitsValue(s[..|s| - 1]) * 10 + DigitValue(s[|s| - 1])
  }

  /** `str(n)` for a natural number. */
  function ShowNat(n: nat): (r: string)
    ensures r != [] && AllDigits(r)
  {
    if n < 10 then [DigitChar(n)] else ShowNat(n / 10) + [DigitChar(n % 10)]
  }

  /** `str(n)` for an integer. */
  function ShowInt(n: int): string
  {
    if n < 0 then "-" + ShowNat(-n) else ShowNat(n)
  }

  function TrimLeft(s: string): (r: string)
    ensures |r| <= |s|
    ensures r != [] ==> !IsSpace(r[0])
  {
    if s != [] && IsSpace(s[0]) then TrimLeft(s[1..]) else s
  }

  function TrimRight(s: string): (r: string)
    ensures |r| <= |s|
    ensures r != [] ==> !IsSpace(r[|r| - 1])
  {
    if s != [] && IsSpace(s[|s| - 1]) then TrimRight(s[..|s| - 1]) else s
  }

  /** Decimal digits and `_`, the characters MicroPython's parser takes in base 10. */
  predicate DigitRun(d: string)
  {
    forall i :: 0 <= i < |d| ==> IsDigit(d[i]) || d[i] == '_'
  }

  /** The digits of a run with every `_` skipped. */
  function SkipUnderscores(d: string): (r: string)
    requires DigitRun(d)
    ensures AllDigits(r)
  {
    if d == [] then [] else
      var rest := SkipUnderscores(d[1..]);
      if d[0] == '_' then rest else
        assert forall i :: 1 <= i < |rest| + 1 ==> ([d[0]] + rest)[i] == rest[i - 1];
        [d[0]] + rest
  }

  /** The digit run after the sign: at least one character, each a digit or
      a `_`, which the parser skips wherever it appears. */
  function ParseDigits(d: string): Option<nat>
  {
    if d != [] && DigitRun(d) then Some(DigitsValue(SkipUnderscores(d))) else None
  }

  /** `int(s)` for a string in base 10: optional surrounding whitespace, an
      optional sign, then a run of digits in which `_` is skipped. */
  function ParseIntLiteral(s: string): Option<int>
  {
    var t := TrimRight(TrimLeft(s));
    if t != [] && t[0] == '-' then
      match ParseDigits(t[1..])
      case Some(n) => Some(-(n as int))
      case None => None
    else if t != [] && t[0] == '+' then
      match ParseDigits(t[1..])
      case Some(n) => Some(n)
      case None => None
    else
      match ParseDigits(t)
      case Some(n) => Some(n)
      case None => None
  }

  lemma {:induction false} DigitsValueOfShowNat(n: nat)
    ensures DigitsValue(ShowNat(n)) == n
  {
    if n >= 10 {
      DigitsValueOfShowNat(n / 10);
      var s := ShowNat(n / 10) + [DigitChar(n % 10)];
      assert s[..|s| - 1] == ShowNat(n / 10);
    }
  }

  /** `int(str(n)) == n`: the integer parser reads back what `str()` writes. */
  lemma ParseShowInt(n: int)
    ensures ParseIntLiteral(ShowInt(n)) == Some(n)
  {
    var d := ShowNat(if n < 0 then -n else n);
    assert IsDigit(d[0]) && IsDigit(d[|d| - 1]);
    assert DigitRun(d);
    SkipNoUnderscores(d);
    DigitsValueOfShowNat(if n < 0 then -n else n);
    if n < 0 {
      ParseSigned("-", d);
    } else {
      assert "" + d == d;
      ParseSigned("", d);
    }
  }

  /** `int(x)`: integers as they are, booleans as 0 or 1, strings parsed in
      base 10 (`ValueError` when malformed), anything else a `TypeError`. */
  function PyInt(j: Json): (r: Result<int>)
    ensures r.Err? ==> r.error.kind == ValueError || r.error.kind == TypeError
    ensures r.Err? && r.error.kind == ValueError <==> j.JStr? && ParseIntLiteral(j.s).None?
    ensures j.JInt? ==> r == Ok(j.i)
  {
    match j
    case JInt(i) => Ok(i)
    case JBool(b) => Ok(if b then 1 else 0)
    case JStr(s) =>
      (match ParseIntLiteral(s)
       case Some(n) => Ok(n)
       case None => Err(Error(ValueError, "invalid syntax for integer with base 10")))
    case _ => Err(Error(TypeError, "can't convert " + TypeName(j) + " to int"))
  }

  /** A run of digits is left as it is by the underscore skip. */
  lemma {:induction false} SkipNoUnderscores(d: string)
    requires AllDigits(d)
    ensures SkipUnderscores(d) == d
  {
    if d != [] {
      assert IsDigit(d[0]);
      SkipNoUnderscores(d[1..]);
      assert d == [d[0]] + d[1..];
    }
  }

  /** Two digit runs concatenate to a digit run. */
  lemma DigitRunAppend(a: string, b: string)
    requires DigitRun(a) && DigitRun(b)
    ensures DigitRun(a + b)
  {
    forall i | 0 <= i < |a + b| ensures IsDigit((a + b)[i]) || (a + b)[i] == '_' {
      if i < |a| {
        assert (a + b)[i] == a[i];
      } else {
        assert (a + b)[i] == b[i - |a|];
      }
    }
  }

  /** The underscore skip distributes over concatenation. */
  lemma {:induction false} SkipUnderscoresAppend(a: string, b: string)
    requires DigitRun(a) && DigitRun(b)
    ensures DigitRun(a + b)
    ensures SkipUnderscores(a + b) == SkipUnderscores(a) + SkipUnderscores(b)
  {
    DigitRunAppend(a, b);
    if a != [] {
      var ab := a + b;
      assert ab[0] == a[0];
      assert ab[1..] == a[1..] + b;
      assert DigitRun(a[1..]);
      SkipUnderscoresAppend(a[1..], b);
      var head: string := if a[0] == '_' then [] else [a[0]];
      assert SkipUnderscores(ab) == head + SkipUnderscores(a[1..] + b);
      assert SkipUnderscores(a) == head + SkipUnderscores(a[1..]);
    } else {
      assert a + b == b;
    }
  }

  /** Text that starts and ends with something other than whitespace is not trimmed. */
  lemma TrimNothing(s: string)
    requires s != [] && !IsSpace(s[0]) && !IsSpace(s[|s| - 1])
    ensures TrimRight(TrimLeft(s)) == s
  {
  }

  /** The number a sign and a digit run read as, if the run reads as one. */
  function Signed(sign: string, digits: Option<nat>): Option<int>
  {
    match digits
    case None => None
    case Some(n) => Some(if sign == "-" then -(n as int) else n)
  }

  /** A sign, or none, in front of a run that starts and ends with a digit. */
  lemma ParseSigned(sign: string, d: string)
    requires sign == "" || sign == "-" || sign == "+"
    requires d != [] && IsDigit(d[0]) && IsDigit(d[|d| - 1])
    ensures ParseIntLiteral(sign + d) == Signed(sign, ParseDigits(d))
  {
    var u := sign + d;
    assert u[|u| - 1] == d[|d| - 1];
    assert u[0] == (if sign == "" then d[0] else sign[0]);
    TrimNothing(u);
    assert u[|sign|..] == d;
  }

  /** A `_` between two runs of digits is skipped. */
  lemma SkipInnerUnderscore(a: string, b: string)
    requires AllDigits(a) && AllDigits(b)
    ensures DigitRun(a + ("_" + b)) && SkipUnderscores(a + ("_" + b)) == a + b
  {
    SkipNoUnderscores(a);
    SkipNoUnderscores(b);
    SkipUnderscoresAppend("_", b);
    SkipUnderscoresAppend(a, "_" + b);
    assert SkipUnderscores("_") == [];
  }

  /** Two digit runs that read as the same number read the same after a sign. */
  lemma SameDigitsSameInt(sign: string, d1: string, d2: string)
    requires sign == "" || sign == "-" || sign == "+"
    requires d1 != [] && IsDigit(d1[0]) && IsDigit(d1[|d1| - 1])
    requires d2 != [] && IsDigit(d2[0]) && IsDigit(d2[|d2| - 1])
    requires ParseDigits(d1) == ParseDigits(d2) && ParseDigits(d1).Some?
    ensures ParseIntLiteral(sign + d1) == ParseIntLiteral(sign + d2)
    ensures ParseIntLiteral(sign + d1).Some?
  {
    ParseSigned(sign, d1);
    ParseSigned(sign, d2);
  }

  /** `int("1_000") == int("1000")`: a `_` between two runs of digits does
      not change the number read, with or without a sign in front. */
  lemma UnderscoreIgnored(sign: string, a: string, b: string)
    requires sign == "" || sign == "-" || sign == "+"
    requires a != [] && b != [] && AllDigits(a) && AllDigits(b)
    ensures ParseIntLiteral(sign + a + "_" + b) == ParseIntLiteral(sign + a + b)
    ensures ParseIntLiteral(sign + a + b).Some?
  {
    var d1, d2 := a + ("_" + b), a + b;
    assert sign + a + "_" + b == sign + d1;
    assert sign + a + b == sign + d2;
    assert IsDigit(a[0]) && IsDigit(b[|b| - 1]);
    assert d1[0] == a[0] && d1[|d1| - 1] == b[|b| - 1];
    assert d2[0] == a[0] && d2[|d2| - 1] == b[|b| - 1];
    SkipInnerUnderscore(a, b);
    SkipNoUnderscores(d2);
    SameDigitsSameInt(sign, d1, d2);
  }

  // ---------------------------------------------------------------------------
  // The `in` operator, as `load_config` applies it to the decoded file

  /** `k` occurs in `s` at position `i`. */
  ghost predicate InfixAt(k: string, s: string, i: int)
  {
    0 <= i && i + |k| <= |s| && s[i..i + |k|] == k
  }

  /** Substring test, `k in s` for two strings. */
  function IsInfix(k: string, s: string): (r: bool)
    ensures r <==> exists i :: InfixAt(k, s, i)
    decreases |s|
  {
    if |k| > |s| then false
    else if s[..|k|] == k then assert InfixAt(k, s, 0); true
    else
      var r := IsInfix(k, s[1..]);
      assert r ==> exists i :: InfixAt(k, s, i) by {
        if r {
          var i :| InfixAt(k, s[1..], i);
          assert s[i + 1..i + 1 + |k|] == s[1..][i..i + |k|];
          assert InfixAt(k, s, i + 1);
        }
      }
      assert (exists i :: InfixAt(k, s, i)) ==> r by {
        if exists i :: InfixAt(k, s, i) {
          var i :| InfixAt(k, s, i);
          assert i != 0;
          assert s[1..][i - 1..i - 1 + |k|] == s[i..i + |k|];
          assert InfixAt(k, s[1..], i - 1);
        }
      }
      r
  }

  /** `key in x`: dict membership, list element test, substring test, and a
      `TypeError` for values that cannot be searched. */
  function Contains(x: Json, key: string): (r: Result<bool>)
    ensures x.JObject? ==> r == Ok(key in x.fields)
    ensures x.JArray? ==> r == Ok(JStr(key) in x.items)
    ensures r.Err? <==> !(x.JObject? || x.JArray? || x.JStr?)
  {
    match x
    case JObject(fields) => Ok(key in fields)
    case JArray(items) => Ok(JStr(key) in items)
    case JStr(s) => Ok(IsInfix(key, s))
    case _ => Err(Error(TypeError, "argument of type '" + TypeName(x) + "' is not iterable"))
  }
}
