/**
 * The loosely typed values the core receives from decoded JSON (configuration
 * files, input-setting files, API responses), the dictionary operations it
 * applies to them, and Python's `str()`, `int()` and `float()` coercions.
 */
module Json {
  import opened Common
  import opened Strings
  import opened Numerals

  /** A float written as a decimal literal: `mantissa * 10^exponent`. */
  datatype Decimal = Decimal(mantissa: int, exponent: int)

  function Pow10(n: nat): (p: nat)
    ensures p >= 1
  {
    if n == 0 then 1 else 10 * Pow10(n - 1)
  }

  function DecimalValue(d: Decimal): real {
    if d.exponent >= 0 then (d.mantissa * Pow10(d.exponent)) as real
    else d.mantissa as real / Pow10(-d.exponent) as real
  }

  /**
   * A decoded JSON value. An object keeps its entries in insertion order, as
   * a Python `dict` does, and is looked up by its first entry with a key.
   */
  datatype Value =
    | Null
    | Bool(b: bool)
    | Int(i: int)
    | Float(d: Decimal)
    | Str(s: string)
    | Arr(items: seq<Value>)
    | Obj(fields: seq<(string, Value)>)

  /** The exceptions Python's built-in coercions raise. */
  datatype PyError = ValueError | TypeError

  // ---------------------------------------------------------------------
  // Dictionaries
  // ---------------------------------------------------------------------

  /** `d.get(key)` */
  function Lookup(fields: seq<(string, Value)>, key: string): Option<Value> {
    if fields == [] then None
    else if fields[0].0 == key then Some(fields[0].1)
    else Lookup(fields[1..], key)
  }

  /** `d[key] = value`: an existing key keeps its place, a new one goes last. */
  function Put(fields: seq<(string, Value)>, key: string, v: Value): seq<(string, Value)> {
    if fields == [] then [(key, v)]
    else if fields[0].0 == key then [(key, v)] + fields[1..]
    else [fields[0]] + Put(fields[1..], key, v)
  }

  /** `d.pop(key, None)` */
  function Remove(fields: seq<(string, Value)>, key: string): seq<(string, Value)> {
    if fields == [] then []
    else if fields[0].0 == key then Remove(fields[1..], key)
    else [fields[0]] + Remove(fields[1..], key)
  }

  lemma {:induction false} LookupPut(fields: seq<(string, Value)>, key: string, v: Value, other: string)
    ensures Lookup(Put(fields, key, v), key) == Some(v)
    ensures other != key ==> Lookup(Put(fields, key, v), other) == Lookup(fields, other)
  {
    if fields != [] && fields[0].0 != key {
      LookupPut(fields[1..], key, v, other);
    }
  }

  lemma {:induction false} LookupConcat(a: seq<(string, Value)>, b: seq<(string, Value)>, key: string)
    ensures Lookup(a + b, key) == if Lookup(a, key).Some? then Lookup(a, key) else Lookup(b, key)
  {
    if a != [] {
      assert (a + b)[1..] == a[1..] + b;
      LookupConcat(a[1..], b, key);
    } else {
      assert a + b == b;
    }
  }

  lemma {:induction false} LookupRemove(fields: seq<(string, Value)>, key: string, other: string)
    ensures Lookup(Remove(fields, key), key) == None
    ensures other != key ==> Lookup(Remove(fields, key), other) == Lookup(fields, other)
  {
    if fields != [] {
      LookupRemove(fields[1..], key, other);
    }
  }

  // ---------------------------------------------------------------------
  // str() and repr()
  // ---------------------------------------------------------------------

  function Repeat(c: char, n: nat): (s: string)
    ensures |s| == n
  {
    if n == 0 then [] else [c] + Repeat(c, n - 1)
  }

  function DropTrailingZeros(s: string): string {
    if s != [] && s[|s| - 1] == '0' then DropTrailingZeros(s[..|s| - 1]) else s
  }

  /** `a / 10^k` written with a decimal point and at least one fractional digit. */
  function PointedRepr(a: nat, k: nat): string {
    var digits := NatToString(a);
    var padded := if |digits| <= k then Repeat('0', k + 1 - |digits|) + digits else digits;
    var f := DropTrailingZeros(padded[|padded| - k..]);
    padded[..|padded| - k] + "." + (if f == [] then "0" else f)
  }

  /** Python's `repr` of a float, in positional notation. */
  function DecimalRepr(d: Decimal): string {
    if d.exponent >= 0 then IntToString(d.mantissa * Pow10(d.exponent)) + ".0"
    else if d.mantissa < 0 then "-" + PointedRepr(-d.mantissa, -d.exponent)
    else PointedRepr(d.mantissa, -d.exponent)
  }

  /** A character `repr` writes as a `\xhh` escape: the ASCII control characters other than tab, newline and return. */
  predicate IsHexEscaped(c: char) {
    (c < ' ' && c != '\t' && c != '\n' && c != '\r') || c == '\U{7F}'
  }

  /** One character inside a string's `repr` quoted with `quote`. */
  function EscapedChar(c: char, quote: char): string {
    if c == quote || c == '\\' then ['\\', c]
    else if c == '\t' then "\\t"
    else if c == '\n' then "\\n"
    else if c == '\r' then "\\r"
    else if IsHexEscaped(c) then "\\x" + [HexDigits[c as int / 16], HexDigits[c as int % 16]]
    else [c]
  }

  const HexDigits := "0123456789abcdef"

  function Escaped(s: string, quote: char): string {
    if s == [] then [] else EscapedChar(s[0], quote) + Escaped(s[1..], quote)
  }

  /**
   * `repr(s)` of a string: quoted with `'`, or with `"` when the text holds
   * an apostrophe and no double quote; backslashes, the chosen quote and the
   * ASCII control characters are escaped.
   */
  function StrRepr(s: string): string {
    var quote := if '\'' in s && '"' !in s then '"' else '\'';
    [quote] + Escaped(s, quote) + [quote]
  }

  /** A character that `repr` writes as it is, whichever quote it uses. */
  predicate IsPlain(c: char) {
    c != '\'' && c != '"' && c != '\\' && c != '\t' && c != '\n' && c != '\r' && !IsHexEscaped(c)
  }

  /** Without quotes, backslashes or control characters a string's `repr` is the text in single quotes. */
  lemma {:induction false} StrReprPlain(s: string)
    requires forall i :: 0 <= i < |s| ==> IsPlain(s[i])
    ensures StrRepr(s) == "'" + s + "'"
  {
    EscapedPlain(s, '\'');
  }

  lemma {:induction false} EscapedPlain(s: string, quote: char)
    requires quote == '\'' || quote == '"'
    requires forall i :: 0 <= i < |s| ==> IsPlain(s[i])
    ensures Escaped(s, quote) == s
  {
    if s != [] {
      EscapedPlain(s[1..], quote);
      assert s == [s[0]] + s[1..];
    }
  }

  /** `str(["it's"])` quotes the apostrophe's string with `"`. */
  lemma StrReprApostrophe()
    ensures StrRepr("it's") == "\"it's\""
  {
    assert "it's"[2] == '\'';
    assert forall i :: 0 <= i < |"it's"| ==> "it's"[i] != '"';
    assert Escaped("it's", '"') == "it's" by {
      EscapedPlainExcept("it's", '"');
    }
  }

  /** With `"` as the quote, apostrophes are written as they are. */
  lemma {:induction false} EscapedPlainExcept(s: string, quote: char)
    requires quote == '"'
    requires forall i :: 0 <= i < |s| ==> IsPlain(s[i]) || s[i] == '\''
    ensures Escaped(s, quote) == s
  {
    if s != [] {
      EscapedPlainExcept(s[1..], quote);
      assert s == [s[0]] + s[1..];
    }
  }

  /** `repr(v)`. */
  function Repr(v: Value): string
    decreases v
  {
    match v
    case Null => "None"
    case Bool(b) => if b then "True" else "False"
    case Int(i) => IntToString(i)
    case Float(d) => DecimalRepr(d)
    case Str(s) => StrRepr(s)
    case Arr(items) =>
      "[" + Join(", ", seq(|items|, k requires 0 <= k < |items| => Repr(items[k]))) + "]"
    case Obj(fields) =>
      "{" + Join(", ", seq(|fields|, k requires 0 <= k < |fields| =>
        StrRepr(fields[k].0) + ": " + Repr(fields[k].1))) + "}"
  }

  /** A list of strings as a value. */
  function Strs(xs: seq<string>): (r: seq<Value>)
    ensures |r| == |xs|
  {
    seq(|xs|, i requires 0 <= i < |xs| => Str(xs[i]))
  }

  /** `str(v)`: a string is itself, everything else its `repr`. */
  function PyStr(v: Value): string {
    if v.Str? then v.s else Repr(v)
  }

  // ---------------------------------------------------------------------
  // int() and float()
  // ---------------------------------------------------------------------

  /** `int(v)`: truncates a float toward zero and parses a string. */
  function ToInt(v: Value): Result<int, PyError> {
    match v
    case Bool(b) => Ok(if b then 1 else 0)
    case Int(i) => Ok(i)
    case Float(d) =>
      if d.exponent >= 0 then Ok(d.mantissa * Pow10(d.exponent))
      else Ok(Trunc(d.mantissa, Pow10(-d.exponent)))
    case Str(s) => if ParseInt(s).Some? then Ok(ParseInt(s).value) else Err(ValueError)
    case _ => Err(TypeError)
  }

  /** The decimal literal `[sign] digits [. digits]` with at least one digit. */
  function ParseDecimal(t: string): Option<Decimal> {
    var (body, negative) := SignedDigits(t);
    var parts := SplitOn(body, '.');
    var whole := parts[0];
    var frac := if |parts| == 2 then parts[1] else "";
    if |parts| > 2 || |whole| + |frac| == 0 || !AllDigits(whole) || !AllDigits(frac) then None
    else
      var m := DigitsValue(whole + frac);
      Some(Decimal(if negative then -(m as int) else m as int, -|frac|))
  }

  /** `float(v)` for the literal forms the model covers. */
  function ToFloat(v: Value): Result<Decimal, PyError> {
    match v
    case Bool(b) => Ok(Decimal(if b then 1 else 0, 0))
    case Int(i) => Ok(Decimal(i, 0))
    case Float(d) => Ok(d)
    case Str(s) =>
      var p := ParseDecimal(Strip(s));
      if p.Some? then Ok(p.value) else Err(ValueError)
    case _ => Err(TypeError)
  }

  /** `int(str(i)) == i` for a value that holds an integer. */
  lemma IntStrRoundTrip(i: int)
    ensures ToInt(Str(PyStr(Int(i)))) == Ok(i)
  {
    IntRoundTrip(i);
  }

  /** `float()` of an integer keeps its value. */
  lemma IntToFloatValue(i: int)
    ensures ToFloat(Int(i)).Ok? && DecimalValue(ToFloat(Int(i)).value) == i as real
  {
  }
}
