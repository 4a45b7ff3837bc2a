/** Python's dynamically typed values as they travel through dictionaries,
    JSON documents and CSV cells, with the built-in conversions the engine
    applies to them: truthiness, `int()`, `float()`, `str()` and iteration. */
module Values {
  import opened Basics
  import opened Text

  datatype Value =
    | VNone
    | VBool(b: bool)
    | VInt(i: int)
    | VFloat(r: real)
    | VStr(s: string)
    | VList(items: seq<Value>)
    | VDict(entries: seq<(string, Value)>)

  /** A JSON file as the engine sees it: absent, present but not valid JSON,
      or the parsed document. */
  datatype JsonFile = Missing | Malformed | Parsed(doc: Value)

  /** `bool(v)`: None, False, zero, and empty text, lists and dicts are false. */
  predicate Truthy(v: Value) {
    match v
    case VNone => false
    case VBool(b) => b
    case VInt(i) => i != 0
    case VFloat(r) => r != 0.0
    case VStr(s) => s != []
    case VList(items) => items != []
    case VDict(entries) => entries != []
  }

  /** `int(r)` for a float: truncation toward zero. */
  function Truncate(r: real): (n: int)
    ensures r >= 0.0 ==> 0 <= n && n as real <= r < n as real + 1.0
    ensures r < 0.0 ==> n <= 0 && n as real - 1.0 < r <= n as real
  {
    if r >= 0.0 then r.Floor else -((-r).Floor)
  }

  /** `int(v)`; None when Python raises ValueError or TypeError. Text is
      trimmed of surrounding whitespace first, as `int()` does. */
  function ToInt(v: Value): Option<int> {
    match v
    case VBool(b) => Some(if b then 1 else 0)
    case VInt(i) => Some(i)
    case VFloat(r) => Some(Truncate(r))
    case VStr(s) => ParseInt(Strip(s))
    case _ => None
  }

  /** `float(v)`; None when Python raises ValueError or TypeError. */
  function ToFloat(v: Value): Option<real> {
    match v
    case VBool(b) => Some(if b then 1.0 else 0.0)
    case VInt(i) => Some(i as real)
    case VFloat(r) => Some(r)
    case VStr(s) => ParseDecimal(Strip(s))
    case _ => None
  }

  /** `str(v)` */
  function Render(v: Value): string {
    match v
    case VNone => "None"
    case VBool(b) => if b then "True" else "False"
    case VInt(i) => FormatInt(i)
    case VFloat(r) => FormatDecimal(r)
    case VStr(s) => s
    case VList(_) => "[...]"
    case VDict(_) => "{...}"
  }

  /** The elements `for x in v` visits: list items, dict keys, or the characters
      of a text; None when the value is not iterable (TypeError). */
  function Iterate(v: Value): (r: Option<seq<Value>>)
    ensures v.VList? ==> r == Some(v.items)
    ensures r.Some? <==> v.VList? || v.VDict? || v.VStr?
  {
    match v
    case VList(items) => Some(items)
    case VDict(entries) => Some(seq(|entries|, i requires 0 <= i < |entries| => VStr(entries[i].0)))
    case VStr(s) => Some(seq(|s|, i requires 0 <= i < |s| => VStr([s[i]])))
    case _ => None
  }

  /** `int(str(i)) == i` */
  lemma IntTextRoundTrip(i: int)
    ensures ToInt(VStr(Render(VInt(i)))) == Some(i)
  {
    var t := FormatInt(i);
    assert t != [] ==> IsDigit(t[|t| - 1]);
    assert t[0] == '-' || IsDigit(t[0]);
    StripUnchanged(t);
    ParseFormatInt(i);
  }

  /** `float(str(x)) == x` for a float that is a whole number of cents. */
  lemma FloatTextRoundTrip(r: real)
    requires WholeCents(r)
    ensures ToFloat(VStr(Render(VFloat(r)))) == Some(r)
  {
    DecimalTextTrimmed(r);
    ParseFormatDecimal(r);
  }

  /** The text of a float starts with a digit or a sign and ends with a digit,
      so `strip()` leaves it alone. */
  lemma DecimalTextTrimmed(r: real)
    ensures Strip(FormatDecimal(r)) == FormatDecimal(r)
  {
    var c := Cents(r);
    var u := UnsignedDecimalText(if c < 0 then -c else c);
    UnsignedDecimalShape(if c < 0 then -c else c);
    var t := FormatDecimal(r);
    assert t == (if c < 0 then "-" + u else u);
    assert t[|t| - 1] == u[|u| - 1];
    StripUnchanged(t);
  }

  /** `str()` of a number is made of digits, a minus sign and (for a float) a
      decimal point only, so it contains no other character. */
  lemma NumberTextOmits(v: Value, c: char)
    requires v.VInt? || v.VFloat?
    requires !IsDigit(c) && c != '-' && (v.VFloat? ==> c != '.')
    ensures c !in Render(v)
  {
    var t := Render(v);
    if v.VInt? {
      if v.i < 0 {
        assert t == "-" + FormatNat(-v.i);
        assert forall k :: 1 <= k < |t| ==> t[k] == FormatNat(-v.i)[k - 1];
      }
    } else {
      var c := Cents(v.r);
      var u := UnsignedDecimalText(if c < 0 then -c else c);
      UnsignedDecimalShape(if c < 0 then -c else c);
      assert t == (if c < 0 then "-" + u else u);
      if c < 0 {
        assert forall k :: 1 <= k < |t| ==> t[k] == u[k - 1];
      }
    }
  }
}
