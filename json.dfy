/** JSON values as the capture script sees them after decoding, and the Python
    built-ins the script applies to them: truthiness, `a or b`, `dict.get`,
    `str()`, `str.upper()` and `int()`. */
module Json {
  import opened Wrappers

  /** A decoded JSON value. Python's None, JSON null and a key that `dict.get`
      does not find are all JNull. JSON numbers are integers here. Objects are
      maps, so the order of their keys is not represented: two dicts that
      differ only in key order are the same value here. */
  datatype JSON =
    | JNull
    | JBool(b: bool)
    | JInt(n: int)
    | JString(s: string)
    | JArray(items: seq<JSON>)
    | JObject(fields: map<string, JSON>)

  /** Python truthiness of a JSON value. */
  predicate Truthy(v: JSON) {
    match v
    case JNull => false
    case JBool(b) => b
    case JInt(n) => n != 0
    case JString(s) => s != ""
    case JArray(items) => items != []
    case JObject(fields) => fields != map[]
  }

  /** Python `a or b`: the first operand when it is truthy, else the second. */
  function Or(a: JSON, b: JSON): JSON {
    if Truthy(a) then a else b
  }

  /** Python `d.get(key)`. */
  function Get(d: map<string, JSON>, key: string): JSON {
    if key in d then d[key] else JNull
  }

  // ---------------------------------------------------------------- str.upper()

  function UpperChar(c: char): char {
    if 'a' <= c <= 'z' then (c as int - 32) as char else c
  }

  /** `str.upper()` restricted to ASCII letters. */
  function Upper(s: string): (r: string)
    ensures |r| == |s|
    ensures forall i :: 0 <= i < |s| ==> r[i] == UpperChar(s[i])
    ensures forall i :: 0 <= i < |r| ==> !('a' <= r[i] <= 'z')
  {
    if s == [] then [] else [UpperChar(s[0])] + Upper(s[1..])
  }

  /** Uppercasing twice is uppercasing once, so comparing `x.upper()` with an
      already uppercased filter is a case-insensitive comparison. */
  lemma {:induction false} UpperIdempotent(s: string)
    ensures Upper(Upper(s)) == Upper(s)
  {
    if s != [] {
      UpperIdempotent(s[1..]);
    }
  }

  // ---------------------------------------------------------------- int() and str() on integers

  predicate IsDigit(c: char) {
    '0' <= c <= '9'
  }

  /** The ASCII characters Python's `int()` strips around its argument:
      tab, line feed, vertical tab, form feed, carriage return and space.
      The separators 0x1C-0x1F, which `str.isspace()` accepts, are not
      among them. */
  predicate IsSpace(c: char) {
    c == ' ' || 9 <= c as int <= 13
  }

  function TrimStart(s: string): (r: string)
    ensures |r| <= |s| && r == s[|s| - |r|..]
    ensures r == [] || !IsSpace(r[0])
  {
    if s != [] && IsSpace(s[0]) then TrimStart(s[1..]) else s
  }

  function TrimEnd(s: string): (r: string)
    ensures |r| <= |s| && r == s[..|r|]
    ensures r == [] || !IsSpace(r[|r| - 1])
  {
    if s != [] && IsSpace(s[|s| - 1]) then TrimEnd(s[..|s| - 1]) else s
  }

  /** Digits, possibly with single underscores between them, as `int()`
      accepts in base 10 ("1_000"). */
  predicate IsDigitGroups(s: string) {
    && s != []
    && IsDigit(s[0])
    && IsDigit(s[|s| - 1])
    && (forall i :: 0 <= i < |s| ==> IsDigit(s[i]) || s[i] == '_')
    && (forall i :: 0 <= i < |s| - 1 && s[i] == '_' ==> IsDigit(s[i + 1]))
  }

  /** The value of a run of digits and underscores, underscores ignored. */
  function DecimalValue(s: string): nat
    requires forall i :: 0 <= i < |s| ==> IsDigit(s[i]) || s[i] == '_'
  {
    if s == [] then 0
    else if s[|s| - 1] == '_' then DecimalValue(s[..|s| - 1])
    else
      assert IsDigit(s[|s| - 1]);
      10 * DecimalValue(s[..|s| - 1]) + (s[|s| - 1] as int - '0' as int)
  }

  /** Python `int(s)` on a string: surrounding whitespace, an optional sign,
      then digit groups; anything else raises ValueError, here None. */
  function ParseInt(s: string): (r: Option<int>)
    ensures (forall i :: 0 <= i < |s| ==> IsSpace(s[i])) ==> r.None?
    ensures r.Some? ==> exists i :: 0 <= i < |s| && IsDigit(s[i])
  {
    var u := TrimStart(s);
    var t := TrimEnd(u);
    assert u != [] ==> u[0] == s[|s| - |u|];
    var at := |s| - |u| + (if t != [] && (t[0] == '-' || t[0] == '+') then 1 else 0);
    assert ParseStripped(t).Some? ==> at < |s| && IsDigit(s[at]);
    ParseStripped(t)
  }

  /** `int()` once the surrounding whitespace is gone. */
  function ParseStripped(t: string): Option<int> {
    var signed := t != [] && (t[0] == '-' || t[0] == '+');
    var body := if signed then t[1..] else t;
    if IsDigitGroups(body) then
      var n: int := DecimalValue(body);
      Some(if signed && t[0] == '-' then -n else n)
    else None
  }

  function DigitChar(d: nat): char
    requires d < 10
  {
    ('0' as int + d) as char
  }

  /** Python `str(n)` for a natural number. */
  function NatToDecimal(n: nat): (r: string)
    ensures r != [] && IsDigit(r[0])
    ensures forall i :: 0 <= i < |r| ==> IsDigit(r[i])
  {
    if n < 10 then [DigitChar(n)] else NatToDecimal(n / 10) + [DigitChar(n % 10)]
  }

  /** Python `str(n)` for an integer. */
  function IntToDecimal(n: int): string {
    if n < 0 then "-" + NatToDecimal(-n) else NatToDecimal(n)
  }

  lemma {:induction false} DecimalValueOfDecimal(n: nat)
    ensures DecimalValue(NatToDecimal(n)) == n
  {
    if n >= 10 {
      DecimalValueOfDecimal(n / 10);
      var r := NatToDecimal(n);
      assert r[..|r| - 1] == NatToDecimal(n / 10);
    }
  }

  lemma StripUnchanged(s: string)
    requires s != [] && !IsSpace(s[0]) && !IsSpace(s[|s| - 1])
    ensures TrimEnd(TrimStart(s)) == s
  {
  }

  lemma DigitsAreGroups(s: string)
    requires s != [] && forall i :: 0 <= i < |s| ==> IsDigit(s[i])
    ensures IsDigitGroups(s)
  {
  }

  lemma StrippedUnsigned(d: string)
    requires IsDigitGroups(d)
    ensures ParseStripped(d) == Some(DecimalValue(d) as int)
  {
  }

  lemma StrippedNegative(d: string)
    requires IsDigitGroups(d)
    ensures ParseStripped("-" + d) == Some(-(DecimalValue(d) as int))
  {
    assert ("-" + d)[1..] == d;
  }

  lemma ParseUnsigned(digits: string)
    requires digits != [] && forall i :: 0 <= i < |digits| ==> IsDigit(digits[i])
    ensures ParseInt(digits) == Some(DecimalValue(digits) as int)
  {
    DigitsAreGroups(digits);
    StripUnchanged(digits);
    StrippedUnsigned(digits);
  }

  lemma ParseNegative(digits: string)
    requires digits != [] && forall i :: 0 <= i < |digits| ==> IsDigit(digits[i])
    ensures ParseInt("-" + digits) == Some(-(DecimalValue(digits) as int))
  {
    DigitsAreGroups(digits);
    var s := "-" + digits;
    assert s[|s| - 1] == digits[|digits| - 1];
    StripUnchanged(s);
    StrippedNegative(digits);
  }

  /** `int()` does not strip the separators 0x1C-0x1F: a run of digits
      after one of them, such as "\x1c200", raises ValueError. */
  lemma SeparatorNotStripped(sep: char, digits: string)
    requires 28 <= sep as int <= 31
    requires digits != [] && forall i :: 0 <= i < |digits| ==> IsDigit(digits[i])
    ensures ParseInt([sep] + digits) == None
  {
    var s := [sep] + digits;
    assert TrimEnd(TrimStart(s)) == s by {
      assert s[0] == sep && s[|s| - 1] == digits[|digits| - 1];
      StripUnchanged(s);
    }
    assert ParseStripped(s) == None by {
      assert s[0] == sep;
      StrippedRejectsNonDigit(s);
    }
  }

  lemma StrippedRejectsNonDigit(t: string)
    requires t != [] && !IsDigit(t[0]) && t[0] != '-' && t[0] != '+'
    ensures ParseStripped(t) == None
  {
  }

  /** `int(str(n)) == n`: the parser and the printer agree on every integer. */
  lemma ParseIntOfDecimal(n: int)
    ensures ParseInt(IntToDecimal(n)) == Some(n)
  {
    if n < 0 {
      var m: nat := -n;
      var d := NatToDecimal(m);
      assert IntToDecimal(n) == "-" + d;
      DecimalValueOfDecimal(m);
      ParseNegative(d);
    } else {
      var d := NatToDecimal(n);
      assert IntToDecimal(n) == d;
      DecimalValueOfDecimal(n);
      ParseUnsigned(d);
    }
  }

  /** Python `int(v)` on a JSON value: booleans and integers convert, strings
      are parsed; None, lists and dicts raise TypeError, here None. */
  function IntOf(v: JSON): (r: Option<int>)
    ensures r.None? <==> v.JNull? || v.JArray? || v.JObject? || (v.JString? && ParseInt(v.s).None?)
    ensures v.JString? && r.Some? ==> exists i :: 0 <= i < |v.s| && IsDigit(v.s[i])
  {
    match v
    case JBool(b) => Some(if b then 1 else 0)
    case JInt(n) => Some(n)
    case JString(s) => ParseInt(s)
    case _ => None
  }

  /** Python `str(v)`. The text of a list or a dict is Python's repr of it,
      which `repr` supplies. */
  function PyStr(v: JSON, repr: JSON -> string): string {
    match v
    case JNull => "None"
    case JBool(b) => if b then "True" else "False"
    case JInt(n) => IntToDecimal(n)
    case JString(s) => s
    case _ => repr(v)
  }

}
