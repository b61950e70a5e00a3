/**
 * Query parameters on their way to PostgreSQL: the text node-postgres sends for a
 * JavaScript value (`prepareValue` of the `pg` client), and how PostgreSQL reads such a
 * text as an `integer` (the 32-bit `int4` input routine), as for the task id and version
 * columns.
 */
module PgParams {
  import opened Base
  import opened Strs
  import opened Js

  // ---------------------------------------------------------------------------------
  // prepareValue

  /** What node-postgres sends for a parameter: SQL NULL, a text, or the JSON text of an
      object.  An object's key order is not kept by `Value`, so that JSON text is not
      spelled out; it starts with `{`. */
  datatype Param = SqlNull | Text(text: string) | ObjectJson

  /** `prepareValue`: `null` and `undefined` are SQL NULL, an array is a PostgreSQL array
      literal, an object is `JSON.stringify` of it, and any other value is `v.toString()`. */
  function ParamOf(v: Value): (r: Param)
    ensures r.SqlNull? <==> v.Null? || v.Undefined?
    ensures v.Str? ==> r == Text(v.s)
    ensures v.Num? ==> r == Text(IntToString(v.n))
    ensures v.Arr? && r.Text? ==> |r.text| >= 2 && r.text[0] == '{' && r.text[|r.text| - 1] == '}'
  {
    match v
    case Undefined => SqlNull
    case Null => SqlNull
    case Obj(_) => ObjectJson
    case Arr(_) =>
      (match ArrayLiteral(v)
       case Some(t) => Text(t)
       case None => ObjectJson)
    case _ => Text(ToString(v))
  }

  /** `arrayString`: the elements between braces, separated by commas; `None` when an
      object is met at any depth, whose JSON text is not spelled out here. */
  function ArrayLiteral(v: Value): (r: Option<string>)
    requires v.Arr?
    ensures r.Some? ==> |r.value| >= 2 && r.value[0] == '{' && r.value[|r.value| - 1] == '}'
    decreases v, 1, 0
  {
    match ElementTexts(v, 0)
    case None => None
    case Some(parts) => Some("{" + Join(parts, ",") + "}")
  }

  /** The written elements of the array `v` from position `i` on. */
  function ElementTexts(v: Value, i: nat): (r: Option<seq<string>>)
    requires v.Arr? && i <= |v.items|
    ensures r.Some? ==> |r.value| == |v.items| - i
    decreases v, 0, |v.items| - i
  {
    if i == |v.items| then Some([])
    else
      match ElementText(v.items[i])
      case None => None
      case Some(e) =>
        match ElementTexts(v, i + 1)
        case None => None
        case Some(rest) => Some([e] + rest)
  }

  /** One array element: `NULL` for `null` and `undefined`, a nested literal for an array,
      and otherwise the element's own text, quoted by `escapeElement`. */
  function ElementText(e: Value): Option<string>
    decreases e, 2, 0
  {
    match e
    case Undefined => Some("NULL")
    case Null => Some("NULL")
    case Arr(_) => ArrayLiteral(e)
    case Obj(_) => None
    case _ => Some(Quoted(ToString(e)))
  }

  /** `escapeElement`: a backslash before every `\` and `"`, and double quotes around. */
  function Quoted(s: string): (r: string)
    ensures |r| >= 2 && r[0] == '"' && r[|r| - 1] == '"'
  {
    "\"" + Escaped(s) + "\""
  }

  function Escaped(s: string): string
  {
    if |s| == 0 then ""
    else (if s[0] == '\\' || s[0] == '"' then ['\\', s[0]] else [s[0]]) + Escaped(s[1..])
  }

  /** How PostgreSQL reads an element back: a backslash keeps the character after it. */
  function Unescaped(s: string): string
  {
    if |s| == 0 then ""
    else if s[0] == '\\' && |s| >= 2 then [s[1]] + Unescaped(s[2..])
    else [s[0]] + Unescaped(s[1..])
  }

  /** The escaping loses nothing: PostgreSQL reads back the element's own text. */
  lemma {:induction false} EscapedRoundTrip(s: string)
    ensures Unescaped(Escaped(s)) == s
  {
    if |s| > 0 {
      EscapedRoundTrip(s[1..]);
      var head := if s[0] == '\\' || s[0] == '"' then ['\\', s[0]] else [s[0]];
      var e := head + Escaped(s[1..]);
      if s[0] == '\\' || s[0] == '"' {
        assert e[0] == '\\' && e[1] == s[0] && e[2..] == Escaped(s[1..]);
      } else {
        assert e[0] == s[0] && e[1..] == Escaped(s[1..]);
      }
      assert s == [s[0]] + s[1..];
    }
  }

  /** A one-element array of a string is sent as `{"…"}`, never as the string itself. */
  lemma SingletonArrayText(s: string)
    ensures ParamOf(Arr([Str(s)])) == Text("{" + Quoted(s) + "}")
  {
    var v := Arr([Str(s)]);
    assert ElementText(v.items[0]) == Some(Quoted(s));
    assert ElementTexts(v, 1) == Some([]);
    assert [Quoted(s)] + [] == [Quoted(s)];
    assert ElementTexts(v, 0) == Some([Quoted(s)]);
    assert Join([Quoted(s)], ",") == Quoted(s);
    assert ArrayLiteral(v) == Some("{" + Quoted(s) + "}");
  }

  // ---------------------------------------------------------------------------------
  // The int4 input routine

  const Int4Min: int := -0x8000_0000
  const Int4Max: int := 0x7FFF_FFFF

  /** The white space the integer input allows around the number (C's `isspace`). */
  predicate IsPgSpace(c: char)
  {
    c == ' ' || c == '\t' || c == '\n' || c == '\r' || c == '\U{000B}' || c == '\U{000C}'
  }

  predicate AllPgSpace(s: string)
  {
    forall i :: 0 <= i < |s| ==> IsPgSpace(s[i])
  }

  function PgTrimStart(s: string): (r: string)
    ensures |r| <= |s| && r == s[|s| - |r|..] && AllPgSpace(s[..|s| - |r|])
    ensures |r| > 0 ==> !IsPgSpace(r[0])
  {
    if |s| > 0 && IsPgSpace(s[0]) then PgTrimStart(s[1..]) else s
  }

  function PgTrimEnd(s: string): (r: string)
    ensures |r| <= |s| && r == s[..|r|] && AllPgSpace(s[|r|..])
    ensures |r| > 0 ==> !IsPgSpace(r[|r| - 1])
  {
    if |s| > 0 && IsPgSpace(s[|s| - 1]) then PgTrimEnd(s[..|s| - 1]) else s
  }

  /** The number between the white space: an optional sign, then at least one digit. */
  function Int4Syntax(t: string): Option<int>
  {
    if |t| > 1 && t[0] == '-' && AllDigits(t[1..]) then Some(0 - DigitsValue(t[1..]))
    else if |t| > 1 && t[0] == '+' && AllDigits(t[1..]) then Some(DigitsValue(t[1..]))
    else if |t| > 0 && AllDigits(t) then Some(DigitsValue(t))
    else None
  }

  function IntegerSyntaxMessage(s: string): string
  {
    "invalid input syntax for type integer: \"" + s + "\""
  }

  function IntegerRangeMessage(s: string): string
  {
    "value \"" + s + "\" is out of range for type integer"
  }

  /** `int4in`: white space, a signed decimal number, white space; a number outside the
      32-bit range is refused with its own message. */
  function Int4Input(s: string): (r: Result<int>)
    ensures r.Ok? ==> Int4Min <= r.value <= Int4Max
    ensures r.Err? ==> r.error == Error(IntegerSyntaxMessage(s)) || r.error == Error(IntegerRangeMessage(s))
  {
    match Int4Syntax(PgTrimEnd(PgTrimStart(s)))
    case None => Err(Error(IntegerSyntaxMessage(s)))
    case Some(n) => if Int4Min <= n <= Int4Max then Ok(n) else Err(Error(IntegerRangeMessage(s)))
  }

  /** An integer parameter as PostgreSQL reads the text node-postgres sends for `v`.  The
      callers refuse falsy values first, so SQL NULL is never sent for one. */
  function IntegerParam(v: Value): (r: Result<int>)
    requires !v.Null? && !v.Undefined?
    ensures r.Ok? ==> Int4Min <= r.value <= Int4Max
    ensures v.Obj? ==> r.Err?
  {
    match ParamOf(v)
    case Text(t) => Int4Input(t)
    case _ => Err(Error(IntegerSyntaxMessage(ObjectJsonShown)))
  }

  /** Stands in an error message for an object's JSON text. */
  const ObjectJsonShown := "{...}"

  /** A written integer with white space around it reads back as itself when it fits in
      32 bits, and is refused as out of range otherwise. */
  lemma Int4Padded(n: int, before: string, after: string)
    requires AllPgSpace(before) && AllPgSpace(after)
    ensures var s := before + IntToString(n) + after;
            Int4Input(s) == if Int4Min <= n <= Int4Max then Ok(n) else Err(Error(IntegerRangeMessage(s)))
  {
    var d := IntToString(n);
    Int4SyntaxDecimal(n);
    PgTrimAround(before, d, after);
  }

  lemma Int4SyntaxDecimal(n: int)
    ensures var d := IntToString(n);
            |d| > 0 && !IsPgSpace(d[0]) && !IsPgSpace(d[|d| - 1]) && Int4Syntax(d) == Some(n)
  {
    var m: nat := if n < 0 then -n else n;
    var digits := NatToString(m);
    NatToStringRoundTrip(m);
    var d := IntToString(n);
    if n < 0 {
      assert d == "-" + digits;
      assert d[0] == '-' && d[1..] == digits && d[|d| - 1] == digits[|digits| - 1];
    } else {
      assert d == digits && IsDigit(d[0]) && IsDigit(d[|d| - 1]);
    }
  }

  lemma PgTrimAround(before: string, d: string, after: string)
    requires AllPgSpace(before) && AllPgSpace(after)
    requires |d| > 0 && !IsPgSpace(d[0]) && !IsPgSpace(d[|d| - 1])
    ensures PgTrimEnd(PgTrimStart(before + d + after)) == d
  {
    assert before + d + after == before + (d + after);
    PgTrimStartSkips(before, d + after);
    PgTrimEndSkips(d, after);
  }

  lemma {:induction false} PgTrimStartSkips(w: string, s: string)
    requires AllPgSpace(w) && |s| > 0 && !IsPgSpace(s[0])
    ensures PgTrimStart(w + s) == s
  {
    if |w| > 0 {
      assert (w + s)[0] == w[0] && (w + s)[1..] == w[1..] + s;
      PgTrimStartSkips(w[1..], s);
    } else {
      assert w + s == s;
    }
  }

  lemma {:induction false} PgTrimEndSkips(s: string, w: string)
    requires AllPgSpace(w) && |s| > 0 && !IsPgSpace(s[|s| - 1])
    ensures PgTrimEnd(s + w) == s
  {
    if |w| > 0 {
      var init := w[..|w| - 1];
      assert (s + w)[|s + w| - 1] == w[|w| - 1] && (s + w)[..|s + w| - 1] == s + init;
      PgTrimEndSkips(s, init);
    } else {
      assert s + w == s;
    }
  }

  /** A number is sent as its decimal text, which reads back as itself when it fits in
      32 bits. */
  lemma NumberParam(n: int)
    ensures IntegerParam(Num(n)) == if Int4Min <= n <= Int4Max then Ok(n)
                                    else Err(Error(IntegerRangeMessage(IntToString(n))))
  {
    Int4Decimal(n);
  }

  lemma Int4Decimal(n: int)
    ensures Int4Input(IntToString(n)) == if Int4Min <= n <= Int4Max then Ok(n)
                                         else Err(Error(IntegerRangeMessage(IntToString(n))))
  {
    var d := IntToString(n);
    Int4SyntaxDecimal(n);
    assert PgTrimStart(d) == d;
    assert PgTrimEnd(d) == d;
  }

  /** A string holding a written integer, with white space around it, reads as that
      integer when it fits in 32 bits. */
  lemma PaddedStringParam(n: int, before: string, after: string)
    requires AllPgSpace(before) && AllPgSpace(after)
    ensures var s := before + IntToString(n) + after;
            IntegerParam(Str(s)) == if Int4Min <= n <= Int4Max then Ok(n) else Err(Error(IntegerRangeMessage(s)))
  {
    Int4Padded(n, before, after);
  }

  /** A task id written as text by `getLastTaskId(...).toString()` reads back as that id
      when it fits in 32 bits, which every id of a `serial` column does. */
  lemma IdParamRoundTrip(id: nat)
    ensures IntegerParam(Str(NatToString(id))) == if id <= Int4Max then Ok(id)
                                                  else Err(Error(IntegerRangeMessage(NatToString(id))))
  {
    Int4Decimal(id);
  }

  /** An array is sent as a literal in braces, which is no integer. */
  lemma ArrayParamRefused(items: seq<Value>)
    ensures IntegerParam(Arr(items)).Err?
  {
    var p := ParamOf(Arr(items));
    if p.Text? {
      BracedNotInteger(p.text);
    }
  }

  lemma BracedNotInteger(t: string)
    requires |t| >= 2 && t[0] == '{' && t[|t| - 1] == '}'
    ensures Int4Input(t).Err?
  {
    assert PgTrimStart(t) == t;
    assert PgTrimEnd(t) == t;
    assert !IsDigit(t[0]);
  }
}
