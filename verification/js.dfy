/**
 * The JavaScript values the system passes around untyped: request bodies and query
 * strings, JSON columns, task parameters and metrics, and the objects the external
 * services return.  Numbers are integers here (see README); `NaN` is its own case.
 */
module Js {
  import opened Base
  import opened Strs

  datatype Value =
    | Undefined
    | Null
    | Bool(b: bool)
    | Num(n: int)
    | NaN
    | Str(s: string)
    | Arr(items: seq<Value>)
    | Obj(fields: map<string, Value>)

  /** JavaScript truthiness: `!v` is `!Truthy(v)`. */
  predicate Truthy(v: Value)
  {
    match v
    case Undefined => false
    case Null => false
    case NaN => false
    case Bool(b) => b
    case Num(n) => n != 0
    case Str(s) => |s| > 0
    case Arr(_) => true
    case Obj(_) => true
  }

  /** `v.key`; `None` is the TypeError raised when `v` is `null` or `undefined`. */
  function Get(v: Value, key: string): (r: Option<Value>)
    ensures r.None? <==> v.Undefined? || v.Null?
    ensures v.Obj? ==> r == Some(if key in v.fields then v.fields[key] else Undefined)
    ensures (v.Str? || v.Arr?) && key == "length" ==> r.Some? && r.value.Num? && r.value.n >= 0
  {
    match v
    case Undefined => None
    case Null => None
    case Obj(fields) => Some(if key in fields then fields[key] else Undefined)
    case Str(s) => Some(if key == "length" then Num(|s|) else Undefined)
    case Arr(items) => Some(if key == "length" then Num(|items|) else Undefined)
    case _ => Some(Undefined)
  }

  /** `String(v)`, which is also what a template literal `${v}` writes. */
  function ToString(v: Value): string
    decreases v, 0
  {
    match v
    case Undefined => "undefined"
    case Null => "null"
    case NaN => "NaN"
    case Bool(b) => if b then "true" else "false"
    case Num(n) => IntToString(n)
    case Str(s) => s
    case Arr(items) => Join(seq(|items|, i requires 0 <= i < |items| => JoinElement(items[i])), ",")
    case Obj(_) => "[object Object]"
  }

  /** How `Array.prototype.join` writes one element: `null` and `undefined` become "". */
  function JoinElement(v: Value): string
    decreases v, 1
  {
    if v.Undefined? || v.Null? then "" else ToString(v)
  }

  /** The characters `parseInt` skips before the number: the same set as `\s`. */
  function TrimStart(s: string): (r: string)
    ensures |r| <= |s| && r == s[|s| - |r|..]
    ensures AllSpace(s[..|s| - |r|])
    ensures |r| > 0 ==> !IsSpaceChar(r[0])
  {
    if |s| > 0 && IsSpaceChar(s[0]) then TrimStart(s[1..]) else s
  }

  function HexDigitValue(c: char): (d: int)
    ensures -1 <= d < 16
  {
    if '0' <= c <= '9' then c as int - '0' as int
    else if 'a' <= c <= 'f' then c as int - 'a' as int + 10
    else if 'A' <= c <= 'F' then c as int - 'A' as int + 10
    else -1
  }

  /** The value of `c` as a digit in base `radix` (10 or 16), or -1. */
  function RadixDigit(c: char, radix: nat): (d: int)
    requires radix == 10 || radix == 16
    ensures -1 <= d < radix
    ensures radix == 10 ==> (d >= 0 <==> IsDigit(c))
    ensures radix == 10 && IsDigit(c) ==> d == DigitValue(c)
  {
    var h := HexDigitValue(c);
    if h < radix then h else -1
  }

  /** The longest prefix of `s` made of digits of the radix. */
  function DigitRun(s: string, radix: nat): (r: string)
    requires radix == 10 || radix == 16
    ensures r <= s
    ensures forall i :: 0 <= i < |r| ==> RadixDigit(r[i], radix) >= 0
    ensures |r| < |s| ==> RadixDigit(s[|r|], radix) < 0
  {
    if |s| > 0 && RadixDigit(s[0], radix) >= 0 then [s[0]] + DigitRun(s[1..], radix) else ""
  }

  function RadixValue(s: string, radix: nat): nat
    requires radix == 10 || radix == 16
    requires forall i :: 0 <= i < |s| ==> RadixDigit(s[i], radix) >= 0
  {
    if |s| == 0 then 0
    else radix * RadixValue(s[..|s| - 1], radix) + RadixDigit(s[|s| - 1], radix)
  }

  /** The digits after the sign: a `0x`/`0X` prefix switches to base 16, then the longest
      run of digits is read; `None` when there is none. */
  function ParseUnsigned(u: string): (r: Option<nat>)
  {
    if |u| >= 2 && u[0] == '0' && (u[1] == 'x' || u[1] == 'X') then
      var digits := DigitRun(u[2..], 16);
      if |digits| == 0 then None else Some(RadixValue(digits, 16))
    else
      var digits := DigitRun(u, 10);
      if |digits| == 0 then None else Some(RadixValue(digits, 10))
  }

  /** `parseInt` after the leading whitespace: an optional sign, then the digits. */
  function ParseSigned(t: string): (r: Option<int>)
  {
    if |t| > 0 && t[0] == '-' then
      match ParseUnsigned(t[1..])
      case None => None
      case Some(k) => Some(0 - k as int)
    else
      var u := if |t| > 0 && t[0] == '+' then t[1..] else t;
      match ParseUnsigned(u)
      case None => None
      case Some(k) => Some(k as int)
  }

  /** `parseInt(s)` with no radix: leading `\s` skipped, an optional sign, a `0x`/`0X`
      prefix switching to base 16, then the longest run of digits; `None` is `NaN`. */
  function ParseInt(s: string): (r: Option<int>)
  {
    ParseSigned(TrimStart(s))
  }

  /** `let n = parseInt(v as string); if (isNaN(n)) n = d;` */
  function IntOrDefault(v: Value, d: int): (n: int)
    ensures ParseInt(ToString(v)).None? ==> n == d
    ensures ParseInt(ToString(v)).Some? ==> n == ParseInt(ToString(v)).value
  {
    match ParseInt(ToString(v))
    case None => d
    case Some(k) => k
  }

  lemma {:induction false} RadixValueDecimal(s: string)
    requires AllDigits(s)
    ensures forall i :: 0 <= i < |s| ==> RadixDigit(s[i], 10) >= 0
    ensures RadixValue(s, 10) == DigitsValue(s)
  {
    if |s| > 0 {
      assert AllDigits(s[..|s| - 1]);
      RadixValueDecimal(s[..|s| - 1]);
    }
  }

  lemma {:induction false} DigitRunAllDigits(s: string)
    requires AllDigits(s)
    ensures DigitRun(s, 10) == s
  {
    if |s| > 0 {
      assert AllDigits(s[1..]);
      DigitRunAllDigits(s[1..]);
      assert s == [s[0]] + s[1..];
    }
  }

  /** The decimal text of a natural number reads back as that number. */
  lemma ParseUnsignedDecimal(m: nat)
    ensures ParseUnsigned(NatToString(m)) == Some(m)
  {
    var d := NatToString(m);
    DigitRunAllDigits(d);
    RadixValueDecimal(d);
    NatToStringRoundTrip(m);
    if |d| >= 2 {
      assert d[0] != '0';
    }
  }

  /** Reading back the decimal text of a number with `parseInt` gives the number. */
  lemma ParseIntRoundTrip(n: int)
    ensures ParseInt(IntToString(n)) == Some(n)
  {
    NumberTextDecimal(n);
    ParseSignedDecimal(n);
    var d := IntToString(n);
    assert TrimStart(d) == d;
  }

  lemma ParseSignedDecimal(n: int)
    ensures ParseSigned(IntToString(n)) == Some(n)
  {
    if n < 0 {
      var d := NatToString(-n);
      ParseUnsignedDecimal(-n);
      var s := "-" + d;
      assert s[0] == '-' && s[1..] == d;
    } else {
      var d := NatToString(n);
      ParseUnsignedDecimal(n);
      NatToStringRoundTrip(n);
      assert IsDigit(d[0]);
    }
  }

  /** Whitespace in front of the text does not change what `parseInt` reads. */
  lemma {:induction false} ParseIntSkipsSpace(w: string, s: string)
    requires AllSpace(w)
    ensures ParseInt(w + s) == ParseInt(s)
  {
    TrimStartSkipsSpace(w, s);
  }

  lemma {:induction false} TrimStartSkipsSpace(w: string, s: string)
    requires AllSpace(w)
    ensures TrimStart(w + s) == TrimStart(s)
  {
    if |w| > 0 {
      assert (w + s)[0] == w[0];
      assert (w + s)[1..] == w[1..] + s;
      assert AllSpace(w[1..]);
      TrimStartSkipsSpace(w[1..], s);
    } else {
      assert w + s == s;
    }
  }

  // ---------------------------------------------------------------------------------
  // Numeric coercion

  /** The whitespace `Number(s)` also drops at the end. */
  function TrimEnd(s: string): (r: string)
    ensures |r| <= |s| && r == s[..|r|]
    ensures AllSpace(s[|r|..])
    ensures |r| > 0 ==> !IsSpaceChar(r[|r| - 1])
  {
    if |s| > 0 && IsSpaceChar(s[|s| - 1]) then TrimEnd(s[..|s| - 1]) else s
  }

  /** The digits of `s` in base `radix`, when `s` is a non-empty run of them. */
  function WholeRun(s: string, radix: nat): (r: Option<nat>)
    requires radix == 10 || radix == 16
    ensures r.Some? <==> |s| > 0 && forall i :: 0 <= i < |s| ==> RadixDigit(s[i], radix) >= 0
  {
    if |s| > 0 && forall i :: 0 <= i < |s| ==> RadixDigit(s[i], radix) >= 0 then Some(RadixValue(s, radix)) else None
  }

  /** `Number(s)` for the strings this model reads as integers: surrounding `\s` dropped,
      then nothing (0), a decimal integer with an optional sign, or `0x`/`0X` and hex
      digits; `None` is `NaN`. */
  function StringToNumber(s: string): (r: Option<int>)
    ensures AllSpace(s) ==> r == Some(0)
  {
    NumberText(TrimEnd(TrimStart(s)))
  }

  /** What `Number` makes of the text once its whitespace is dropped. */
  function NumberText(t: string): Option<int>
  {
    if |t| == 0 then Some(0)
    else if |t| >= 2 && t[0] == '0' && (t[1] == 'x' || t[1] == 'X') then
      match WholeRun(t[2..], 16)
      case None => None
      case Some(k) => Some(k as int)
    else if t[0] == '-' || t[0] == '+' then
      match WholeRun(t[1..], 10)
      case None => None
      case Some(k) => Some(if t[0] == '-' then 0 - k as int else k as int)
    else
      match WholeRun(t, 10)
      case None => None
      case Some(k) => Some(k as int)
  }

  /** `Number(v)`, the coercion of `>` and `-`, on the values this model reads as integers;
      `None` is `NaN`. */
  function ToNumber(v: Value): (r: Option<int>)
    ensures v.Num? ==> r == Some(v.n)
    ensures v.Bool? ==> r == Some(if v.b then 1 else 0)
    ensures v.Undefined? || v.NaN? ==> r.None?
  {
    match v
    case Undefined => None
    case Null => Some(0)
    case Bool(b) => Some(if b then 1 else 0)
    case Num(n) => Some(n)
    case NaN => None
    case Str(s) => StringToNumber(s)
    case _ => None
  }

  lemma {:induction false} TrimEndSkipsSpace(s: string, w: string)
    requires AllSpace(w)
    ensures TrimEnd(s + w) == TrimEnd(s)
    decreases |w|
  {
    if |w| > 0 {
      var n := |w| - 1;
      assert (s + w)[|s + w| - 1] == w[n];
      assert (s + w)[..|s + w| - 1] == s + w[..n];
      assert AllSpace(w[..n]);
      TrimEndSkipsSpace(s, w[..n]);
    } else {
      assert s + w == s;
    }
  }

  /** `Number` drops the whitespace around a text that neither starts nor ends with any. */
  lemma TrimAround(before: string, d: string, after: string)
    requires AllSpace(before) && AllSpace(after)
    requires |d| > 0 && !IsSpaceChar(d[0]) && !IsSpaceChar(d[|d| - 1])
    ensures TrimEnd(TrimStart(before + d + after)) == d
  {
    assert before + d + after == before + (d + after);
    TrimStartSkipsSpace(before, d + after);
    assert TrimStart(d + after) == d + after;
    TrimEndSkipsSpace(d, after);
    assert TrimEnd(d) == d;
  }

  /** A run of decimal digits, with or without a minus sign, reads as its value. */
  lemma NumberTextDigits(digits: string)
    requires |digits| > 0 && AllDigits(digits)
    ensures NumberText(digits) == Some(DigitsValue(digits))
    ensures NumberText("-" + digits) == Some(0 - DigitsValue(digits))
  {
    WholeRunDecimal(digits);
    UnsignedText(digits, DigitsValue(digits));
    NegatedText(digits, DigitsValue(digits));
  }

  lemma UnsignedText(digits: string, k: nat)
    requires |digits| > 0 && IsDigit(digits[0]) && (|digits| >= 2 ==> IsDigit(digits[1]))
    requires WholeRun(digits, 10) == Some(k)
    ensures NumberText(digits) == Some(k)
  {
  }

  lemma NegatedText(digits: string, k: nat)
    requires WholeRun(digits, 10) == Some(k)
    ensures NumberText("-" + digits) == Some(0 - k)
  {
    var negative := "-" + digits;
    assert negative[0] == '-' && negative[1..] == digits;
  }

  lemma WholeRunDecimal(digits: string)
    requires |digits| > 0 && AllDigits(digits)
    ensures WholeRun(digits, 10) == Some(DigitsValue(digits))
  {
    RadixValueDecimal(digits);
  }

  /** The decimal text of an integer, with whitespace around it, converts back to it. */
  lemma ToNumberRoundTrip(n: int, before: string, after: string)
    requires AllSpace(before) && AllSpace(after)
    ensures ToNumber(Str(before + IntToString(n) + after)) == Some(n)
  {
    var d := IntToString(n);
    NumberTextDecimal(n);
    TrimAround(before, d, after);
    assert StringToNumber(before + d + after) == NumberText(d);
  }

  /** The decimal text of an integer, as `${n}` writes it, neither starts nor ends with
      whitespace and reads back as the integer. */
  lemma NumberTextDecimal(n: int)
    ensures var d := IntToString(n);
            |d| > 0 && !IsSpaceChar(d[0]) && !IsSpaceChar(d[|d| - 1]) && NumberText(d) == Some(n)
  {
    var m: nat := if n < 0 then -n else n;
    var digits := NatToString(m);
    NatToStringRoundTrip(m);
    NumberTextDigits(digits);
    DigitNotSpace(digits[0]);
    DigitNotSpace(digits[|digits| - 1]);
    var d := IntToString(n);
    if n < 0 {
      assert d == "-" + digits;
      assert d[0] == '-' && d[|d| - 1] == digits[|digits| - 1];
    } else {
      assert d == digits;
    }
  }

  lemma DigitNotSpace(c: char)
    requires IsDigit(c)
    ensures !IsSpaceChar(c)
  {
  }

  /** A missing query-string parameter is read as `NaN`, so the default is used. */
  lemma IntOrDefaultMissing(d: int)
    ensures IntOrDefault(Undefined, d) == d
  {
    assert TrimStart("undefined") == "undefined";
    assert DigitRun("undefined", 10) == "";
  }
}
