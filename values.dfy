/**
 * Dynamically typed values as both halves of the system exchange them
 * (JSON), with the conversions the source code applies to them: Python
 * truthiness, `int(...)` and `str(...)`; JavaScript truthiness and `parseInt`.
 */
module Values {
  import opened Wrappers
  import opened Text

  /** A JSON value; numbers are integers (floating point is not modelled). */
  datatype Json =
    | Null
    | Bool(b: bool)
    | Int(i: int)
    | Str(s: string)
    | Obj(fields: map<string, Json>)
    | Arr(items: seq<Json>)

  predicate IsScalar(v: Json) { !v.Obj? && !v.Arr? }

  /** A value that is not an object or an array (every form field, every request parameter). */
  type Scalar = v: Json | IsScalar(v) witness Null

  /** Python truth value: None, False, 0, "", {} and [] are false. */
  predicate PyTruthy(v: Json) {
    match v
    case Null => false
    case Bool(b) => b
    case Int(i) => i != 0
    case Str(s) => s != ""
    case Obj(m) => m != map[]
    case Arr(a) => a != []
  }

  /** JavaScript truth value: objects and arrays are truthy even when empty. */
  predicate JsTruthy(v: Json) {
    match v
    case Null => false
    case Bool(b) => b
    case Int(i) => i != 0
    case Str(s) => s != ""
    case Obj(_) => true
    case Arr(_) => true
  }

  /** `obj[key]` on a JSON object; `None` when the value is not an object or lacks the key. */
  function Field(v: Json, key: string): (r: Option<Json>)
    ensures r.Some? <==> v.Obj? && key in v.fields
  {
    if v.Obj? && key in v.fields then Some(v.fields[key]) else None
  }

  /** Python `d.get(key, default)` on a dict. */
  function GetOr(m: map<string, Json>, key: string, default: Json): Json {
    if key in m then m[key] else default
  }

  // ---------------------------------------------------------------------------
  // Python `in` and `[...]`, with the text of the exception each raises

  /** `type(v).__name__`. */
  function TypeName(v: Json): string {
    match v
    case Null => "NoneType"
    case Bool(_) => "bool"
    case Int(_) => "int"
    case Str(_) => "str"
    case Obj(_) => "dict"
    case Arr(_) => "list"
  }

  /**
   * `key in v`: a key of a dict, an element of a list, a substring of a
   * string; any other value raises a `TypeError`.
   */
  function PyIn(key: string, v: Json): (r: Result<bool, string>)
    ensures r.Err? <==> v.Null? || v.Bool? || v.Int?
    ensures v.Obj? ==> r == Ok(key in v.fields)
    ensures v.Arr? ==> r == Ok(Str(key) in v.items)
    ensures v.Str? ==> r == Ok(Contains(v.s, key))
  {
    match v
    case Obj(m) => Ok(key in m)
    case Arr(items) => Ok(Str(key) in items)
    case Str(s) => Ok(Contains(s, key))
    case _ => Err("argument of type '" + TypeName(v) + "' is not iterable")
  }

  /** The text of a `KeyError`: the key in quotes. */
  function KeyErrorText(key: string): string {
    "'" + key + "'"
  }

  /**
   * `v[key]`: the member of a dict; a missing key raises a `KeyError` whose
   * text is the quoted key; any other value raises a `TypeError`.
   */
  function Subscript(v: Json, key: string): (r: Result<Json, string>)
    ensures r.Ok? <==> v.Obj? && key in v.fields
    ensures r.Ok? ==> r.value == v.fields[key]
    ensures v.Obj? && key !in v.fields ==> r == Err(KeyErrorText(key))
  {
    match v
    case Obj(m) => if key in m then Ok(m[key]) else Err(KeyErrorText(key))
    case Arr(_) => Err("list indices must be integers or slices, not str")
    case Str(_) => Err("string indices must be integers, not 'str'")
    case _ => Err("'" + TypeName(v) + "' object is not subscriptable")
  }

  // ---------------------------------------------------------------------------
  // Python int()

  /** Decimal digits, with single underscores allowed between two digits. */
  predicate PyDigitBody(t: string) {
    && |t| > 0
    && IsDigit(t[0])
    && IsDigit(t[|t| - 1])
    && (forall i :: 0 <= i < |t| ==> IsDigit(t[i]) || t[i] == '_')
    && (forall i :: 0 < i < |t| && t[i] == '_' ==> IsDigit(t[i - 1]) && IsDigit(t[i + 1]))
  }

  function DropUnderscores(t: string): (r: string)
    requires forall i :: 0 <= i < |t| ==> IsDigit(t[i]) || t[i] == '_'
    ensures AllDigits(r)
    ensures AllDigits(t) ==> r == t
    decreases |t|
  {
    if |t| == 0 then ""
    else if t[0] == '_' then DropUnderscores(t[1..])
    else [t[0]] + DropUnderscores(t[1..])
  }

  /** `int(s)` for a string: surrounding whitespace, an optional sign, then decimal digits. */
  function PyParseInt(s: string): Option<int> {
    var t := Strip(s);
    var neg := |t| > 0 && t[0] == '-';
    var body := if |t| > 0 && (t[0] == '-' || t[0] == '+') then t[1..] else t;
    if PyDigitBody(body) then
      var n: int := DigitsValue(DropUnderscores(body));
      Some(if neg then -n else n)
    else None
  }

  /** `int(v)`; `None` stands for the ValueError or TypeError it raises. */
  function PyInt(v: Json): Option<int> {
    match v
    case Null => None
    case Bool(b) => Some(if b then 1 else 0)
    case Int(i) => Some(i)
    case Str(s) => PyParseInt(s)
    case Obj(_) => None
    case Arr(_) => None
  }

  lemma AllDigitsNoSpace(s: string)
    requires AllDigits(s)
    ensures TrimStart(s) == s && TrimEnd(s) == s && Strip(s) == s
  {
  }

  /** `int(str(n))` gives `n` back for every natural number. */
  lemma PyParseIntOfNat(n: nat)
    ensures PyParseInt(NatToString(n)) == Some(n)
  {
    PyParseIntOfDigits(NatToString(n));
    NatToStringValue(n);
  }

  /** `int(s)` reads a plain run of decimal digits as its value. */
  lemma PyParseIntOfDigits(s: string)
    requires |s| > 0 && AllDigits(s)
    ensures PyParseInt(s) == Some(DigitsValue(s))
  {
    AllDigitsNoSpace(s);
    var t := Strip(s);
    assert t == s;
    assert !(t[0] == '-' || t[0] == '+') by { assert IsDigit(s[0]); }
    DigitsAreBody(s);
    assert DropUnderscores(s) == s;
  }

  lemma DigitsAreBody(s: string)
    requires |s| > 0 && AllDigits(s)
    ensures PyDigitBody(s)
  {
    forall i | 0 <= i < |s|
      ensures s[i] != '_'
    {
      assert IsDigit(s[i]);
    }
  }

  /** `str(v)` for a scalar value. */
  function PyStr(v: Scalar): string {
    match v
    case Null => "None"
    case Bool(b) => if b then "True" else "False"
    case Int(i) => IntToString(i)
    case Str(s) => s
  }

  // ---------------------------------------------------------------------------
  // JavaScript parseInt (radix left unspecified); `None` stands for NaN

  predicate IsHexDigit(c: char) {
    IsDigit(c) || 'a' <= c <= 'f' || 'A' <= c <= 'F'
  }

  function HexDigitOf(c: char): nat
    requires IsHexDigit(c)
  {
    if IsDigit(c) then DigitOf(c)
    else if 'a' <= c <= 'f' then c as int - 'a' as int + 10
    else c as int - 'A' as int + 10
  }

  /** The longest prefix of `s` made of decimal digits. */
  function DigitPrefix(s: string): (r: string)
    ensures |r| <= |s| && r == s[..|r|] && AllDigits(r)
    ensures |r| < |s| ==> !IsDigit(s[|r|])
    decreases |s|
  {
    if |s| > 0 && IsDigit(s[0]) then [s[0]] + DigitPrefix(s[1..]) else ""
  }

  /** The longest prefix of `s` made of hexadecimal digits. */
  function HexPrefix(s: string): (r: string)
    ensures |r| <= |s| && r == s[..|r|]
    ensures forall i :: 0 <= i < |r| ==> IsHexDigit(r[i])
    decreases |s|
  {
    if |s| > 0 && IsHexDigit(s[0]) then [s[0]] + HexPrefix(s[1..]) else ""
  }

  function HexValue(s: string): nat
    requires forall i :: 0 <= i < |s| ==> IsHexDigit(s[i])
    decreases |s|
  {
    if |s| == 0 then 0 else HexValue(s[..|s| - 1]) * 16 + HexDigitOf(s[|s| - 1])
  }

  /**
   * `parseInt(s)`: leading whitespace, an optional sign, then either `0x`/`0X`
   * and hexadecimal digits or the longest run of decimal digits; anything after
   * that run is ignored.
   */
  function JsParseInt(s: string): Option<int> {
    var t := TrimStart(s);
    var neg := |t| > 0 && t[0] == '-';
    var body := if |t| > 0 && (t[0] == '-' || t[0] == '+') then t[1..] else t;
    var magnitude: Option<int> :=
      if |body| >= 2 && body[0] == '0' && (body[1] == 'x' || body[1] == 'X') then
        var h := HexPrefix(body[2..]);
        if h == "" then None else Some(HexValue(h))
      else
        var d := DigitPrefix(body);
        if d == "" then None else Some(DigitsValue(d));
    match magnitude
    case None => None
    case Some(m) => Some(if neg then -m else m)
  }

  /** `String(v)`: how JavaScript turns a value into text before parsing or interpolating it. */
  function JsString(v: Json): string
    decreases v
  {
    match v
    case Null => "null"
    case Bool(b) => if b then "true" else "false"
    case Int(i) => IntToString(i)
    case Str(s) => s
    case Obj(_) => "[object Object]"
    case Arr(items) => Join(seq(|items|, k requires 0 <= k < |items| => if items[k].Null? then "" else JsString(items[k])), ",")
  }

  /** `parseInt(v)` for any value: its text, parsed. */
  function JsParseIntOf(v: Json): Option<int> {
    JsParseInt(JsString(v))
  }

  /** `parseInt(x)` where `x` may be `undefined`, which parses to NaN. */
  function JsParseIntOpt(s: Option<string>): Option<int> {
    match s
    case None => None
    case Some(t) => JsParseInt(t)
  }

  /** `parseInt(String(n))` gives `n` back for every natural number. */
  lemma JsParseIntOfNat(n: nat)
    ensures JsParseInt(NatToString(n)) == Some(n)
  {
    var s := NatToString(n);
    AllDigitsNoSpace(s);
    NatToStringValue(n);
    DigitPrefixOfDigits(s);
    if |s| >= 2 {
      assert s[1] != 'x' && s[1] != 'X';
    }
  }

  lemma {:induction false} DigitPrefixOfDigits(s: string)
    requires AllDigits(s)
    ensures DigitPrefix(s) == s
    decreases |s|
  {
    if |s| > 0 {
      DigitPrefixOfDigits(s[1..]);
      assert [s[0]] + s[1..] == s;
    }
  }
}
