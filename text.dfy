/** Text helpers with Python's meaning: `str.strip`, `str.lower` (ASCII letters),
    the lines of a text-mode file,
    `in` on strings, `str.split`/`str.join` on a one-character separator, and the
    decimal text of integers and floats as `int()`, `float()` and `str()` read
    and write them. */
module Text {
  import opened Basics

  /** The characters `str.strip()` removes: those for which `str.isspace()`
      holds, ASCII and Unicode alike. */
  predicate IsSpace(c: char) {
    ('\t' <= c <= '\r') || ('\U{1C}' <= c <= ' ') || c == '\U{85}' || c == '\U{A0}' || c == '\U{1680}'
    || ('\U{2000}' <= c <= '\U{200A}') || c == '\U{2028}' || c == '\U{2029}' || c == '\U{202F}'
    || c == '\U{205F}' || c == '\U{3000}'
  }

  function TrimLeft(s: string): string {
    if s != [] && IsSpace(s[0]) then TrimLeft(s[1..]) else s
  }

  function TrimRight(s: string): string {
    if s != [] && IsSpace(s[|s| - 1]) then TrimRight(s[..|s| - 1]) else s
  }

  /** `s.strip()` */
  function Strip(s: string): (r: string)
    ensures |r| <= |s|
    ensures r != [] ==> !IsSpace(r[0]) && !IsSpace(r[|r| - 1])
  {
    TrimLeftEdge(s);
    TrimRightEdge(TrimLeft(s));
    TrimRight(TrimLeft(s))
  }

  lemma {:induction false} TrimLeftEdge(s: string)
    ensures |TrimLeft(s)| <= |s|
    ensures TrimLeft(s) != [] ==> !IsSpace(TrimLeft(s)[0])
  {
    if s != [] && IsSpace(s[0]) { TrimLeftEdge(s[1..]); }
  }

  /** `lstrip()` only drops a prefix. */
  lemma {:induction false} TrimLeftSuffix(s: string)
    ensures |TrimLeft(s)| <= |s| && TrimLeft(s) == s[|s| - |TrimLeft(s)|..]
  {
    if s != [] && IsSpace(s[0]) { TrimLeftSuffix(s[1..]); }
  }

  /** Leading whitespace before text that starts with a non-space character is
      all `lstrip()` removes. */
  lemma {:induction false} TrimLeftAppend(a: string, b: string)
    requires b != [] && !IsSpace(b[0])
    ensures TrimLeft(a + b) == TrimLeft(a) + b
  {
    if a == [] {
      assert a + b == b;
    } else if IsSpace(a[0]) {
      assert (a + b)[1..] == a[1..] + b;
      TrimLeftAppend(a[1..], b);
    }
  }

  lemma {:induction false} TrimRightEdge(s: string)
    ensures TrimRight(s) <= s
    ensures TrimRight(s) != [] ==> !IsSpace(TrimRight(s)[|TrimRight(s)| - 1])
  {
    if s != [] && IsSpace(s[|s| - 1]) { TrimRightEdge(s[..|s| - 1]); }
  }

  /** Text without surrounding whitespace is left as it is by `strip()`. */
  lemma StripUnchanged(s: string)
    requires s != [] ==> !IsSpace(s[0]) && !IsSpace(s[|s| - 1])
    ensures Strip(s) == s
  {
  }

  function LowerChar(c: char): char {
    if 'A' <= c <= 'Z' then (c as int + 32) as char else c
  }

  /** `s.lower()` for ASCII letters: no capital is left, and every other
      character is kept. */
  function Lower(s: string): (r: string)
    ensures |r| == |s|
    ensures forall i :: 0 <= i < |s| ==> r[i] == LowerChar(s[i])
    ensures forall i :: 0 <= i < |r| ==> !('A' <= r[i] <= 'Z')
    ensures forall i :: 0 <= i < |s| && !('A' <= s[i] <= 'Z') ==> r[i] == s[i]
  {
    seq(|s|, i requires 0 <= i < |s| => LowerChar(s[i]))
  }

  /** `needle in hay` */
  predicate IsSubstring(needle: string, hay: string)
    decreases |hay|
  {
    needle <= hay || (hay != [] && IsSubstring(needle, hay[1..]))
  }

  /** `needle` occurs in `hay` starting at position `i`. */
  ghost predicate OccursAt(needle: string, hay: string, i: int) {
    0 <= i && i + |needle| <= |hay| && hay[i..i + |needle|] == needle
  }

  /** `in` holds exactly when the needle occurs at some position of the text. */
  lemma IsSubstringAt(needle: string, hay: string)
    ensures IsSubstring(needle, hay) <==> exists i :: OccursAt(needle, hay, i)
  {
    if IsSubstring(needle, hay) {
      SubstringOccurs(needle, hay);
    }
    if exists i :: OccursAt(needle, hay, i) {
      var i :| OccursAt(needle, hay, i);
      OccurrenceIsSubstring(needle, hay, i);
    }
  }

  lemma {:induction false} SubstringOccurs(needle: string, hay: string)
    requires IsSubstring(needle, hay)
    ensures exists i :: OccursAt(needle, hay, i)
    decreases |hay|
  {
    if needle <= hay {
      assert OccursAt(needle, hay, 0);
    } else {
      SubstringOccurs(needle, hay[1..]);
      var j :| OccursAt(needle, hay[1..], j);
      assert hay[1..][j..j + |needle|] == hay[j + 1..j + 1 + |needle|];
      assert OccursAt(needle, hay, j + 1);
    }
  }

  lemma {:induction false} OccurrenceIsSubstring(needle: string, hay: string, i: int)
    requires OccursAt(needle, hay, i)
    ensures IsSubstring(needle, hay)
    decreases |hay|
  {
    if i == 0 {
      assert needle <= hay;
    } else {
      assert hay[1..][i - 1..i - 1 + |needle|] == hay[i..i + |needle|];
      OccurrenceIsSubstring(needle, hay[1..], i - 1);
    }
  }

  /** The empty query is found in every text. */
  lemma EmptyIsSubstring(hay: string)
    ensures IsSubstring("", hay)
  {
  }

  /** The text a file opened in text mode reads as (universal newlines): `\r\n`
      and a lone `\r` both become `\n`. */
  function UniversalNewlines(s: string): (r: string)
    ensures '\r' !in r
    decreases |s|
  {
    if s == [] then ""
    else if s[0] == '\r' then "\n" + UniversalNewlines(if |s| > 1 && s[1] == '\n' then s[2..] else s[1..])
    else [s[0]] + UniversalNewlines(s[1..])
  }

  /** Text without carriage returns reads as it was written. */
  lemma {:induction false} NoCarriageReturnUnchanged(s: string)
    requires '\r' !in s
    ensures UniversalNewlines(s) == s
  {
    if s != [] {
      NoCarriageReturnUnchanged(s[1..]);
      assert [s[0]] + s[1..] == s;
    }
  }

  /** The lines `for line in f` visits in a text-mode file, each without its
      line end; text ending in a line end has a last, empty piece. */
  function TextLines(s: string): seq<string> {
    Split(UniversalNewlines(s), '\n')
  }

  /** Lines written with `\n` after each and holding no line end read back as
      written, followed by the empty piece after the last line end. */
  lemma TextLinesOfJoin(lines: seq<string>)
    requires forall k :: 0 <= k < |lines| ==> '\n' !in lines[k] && '\r' !in lines[k]
    ensures TextLines(Join(lines + [""], '\n')) == lines + [""]
  {
    var all := lines + [""];
    forall k | 0 <= k < |all|
      ensures '\n' !in all[k] && '\r' !in all[k]
    {
      if k < |lines| {
        assert all[k] == lines[k];
      }
    }
    NotInJoin(all, '\n', '\r');
    NoCarriageReturnUnchanged(Join(all, '\n'));
    SplitJoin(all, '\n');
  }

  /** `s.split(d)`: the pieces between occurrences of `d`, always at least one. */
  function Split(s: string, d: char): (parts: seq<string>)
    ensures |parts| >= 1
    ensures forall k :: 0 <= k < |parts| ==> d !in parts[k]
  {
    if s == [] then [""]
    else
      var rest := Split(s[1..], d);
      if s[0] == d then [""] + rest else [[s[0]] + rest[0]] + rest[1..]
  }

  /** `d.join(parts)` */
  function Join(parts: seq<string>, d: char): string {
    if |parts| == 0 then ""
    else if |parts| == 1 then parts[0]
    else parts[0] + [d] + Join(parts[1..], d)
  }

  /** Joining the pieces of a split gives the text back. */
  lemma {:induction false} JoinSplit(s: string, d: char)
    ensures Join(Split(s, d), d) == s
  {
    if s != [] {
      JoinSplit(s[1..], d);
      var rest := Split(s[1..], d);
      if s[0] != d {
        if |rest| > 1 {
          assert Join(rest, d) == rest[0] + [d] + Join(rest[1..], d);
          assert [s[0]] + rest[0] + [d] + Join(rest[1..], d) == s;
        }
      }
    }
  }

  /** Text without the separator splits into one piece. */
  lemma {:induction false} SplitNoSeparator(p: string, d: char)
    requires d !in p
    ensures Split(p, d) == [p]
  {
    if p != [] {
      SplitNoSeparator(p[1..], d);
      assert [p[0]] + p[1..] == p;
    }
  }

  lemma {:induction false} SplitFirstPiece(p: string, rest: string, d: char)
    requires d !in p
    ensures Split(p + [d] + rest, d) == [p] + Split(rest, d)
  {
    if p == [] {
      assert p + [d] + rest == [d] + rest;
    } else {
      SplitFirstPiece(p[1..], rest, d);
      assert (p + [d] + rest)[1..] == p[1..] + [d] + rest;
      assert [p[0]] + p[1..] == p;
    }
  }

  /** Splitting a join of separator-free pieces gives the pieces back. */
  lemma {:induction false} SplitJoin(parts: seq<string>, d: char)
    requires |parts| >= 1
    requires forall k :: 0 <= k < |parts| ==> d !in parts[k]
    ensures Split(Join(parts, d), d) == parts
  {
    if |parts| == 1 {
      SplitNoSeparator(parts[0], d);
    } else {
      SplitJoin(parts[1..], d);
      SplitFirstPiece(parts[0], Join(parts[1..], d), d);
      assert [parts[0]] + parts[1..] == parts;
    }
  }

  /** A character that is neither in the pieces nor the separator is not in their join. */
  lemma {:induction false} NotInJoin(parts: seq<string>, d: char, c: char)
    requires c != d
    requires forall k :: 0 <= k < |parts| ==> c !in parts[k]
    ensures c !in Join(parts, d)
  {
    if |parts| > 1 {
      NotInJoin(parts[1..], d, c);
    }
  }

  /** The first and last characters of a join come from its first and last
      pieces, or are the separator where those pieces are empty. */
  lemma {:induction false} JoinEdges(parts: seq<string>, d: char)
    requires |parts| >= 2
    ensures var j := Join(parts, d);
      |j| >= 1 &&
      j[0] == (if parts[0] != [] then parts[0][0] else d) &&
      j[|j| - 1] == (if parts[|parts| - 1] != [] then parts[|parts| - 1][|parts[|parts| - 1]| - 1] else d)
  {
    if |parts| > 2 {
      JoinEdges(parts[1..], d);
    }
  }

  predicate IsDigit(c: char) {
    '0' <= c <= '9'
  }

  predicate AllDigits(s: string) {
    forall i :: 0 <= i < |s| ==> IsDigit(s[i])
  }

  function DigitValue(c: char): nat
    requires IsDigit(c)
  {
    c as int - '0' as int
  }

  function DigitChar(n: nat): (c: char)
    requires n < 10
    ensures IsDigit(c) && DigitValue(c) == n
  {
    ('0' as int + n) as char
  }

  /** The decimal digits of `n`, without leading zeros. */
  function FormatNat(n: nat): (s: string)
    ensures |s| >= 1 && AllDigits(s)
  {
    if n < 10 then [DigitChar(n)] else FormatNat(n / 10) + [DigitChar(n % 10)]
  }

  /** The number a string of decimal digits denotes (0 for the empty string). */
  function ParseNat(s: string): nat
    requires AllDigits(s)
  {
    if s == [] then 0 else ParseNat(s[..|s| - 1]) * 10 + DigitValue(s[|s| - 1])
  }

  lemma {:induction false} ParseFormatNat(n: nat)
    ensures ParseNat(FormatNat(n)) == n
  {
    if n >= 10 {
      ParseFormatNat(n / 10);
      var s := FormatNat(n);
      assert s[..|s| - 1] == FormatNat(n / 10);
    }
  }

  /** `str(i)` for an integer. */
  function FormatInt(i: int): string {
    if i < 0 then "-" + FormatNat(-i) else FormatNat(i)
  }

  /** `int(s)` on text that `strip()` has already trimmed: an optional sign
      followed by at least one decimal digit. */
  function ParseInt(s: string): Option<int> {
    if |s| > 0 && (s[0] == '-' || s[0] == '+') then
      var body := s[1..];
      if |body| > 0 && AllDigits(body) then
        Some(if s[0] == '-' then -(ParseNat(body) as int) else ParseNat(body))
      else None
    else if |s| > 0 && AllDigits(s) then Some(ParseNat(s))
    else None
  }

  /** `int(str(i)) == i` */
  lemma ParseFormatInt(i: int)
    ensures ParseInt(FormatInt(i)) == Some(i)
  {
    var digits := FormatNat(if i < 0 then -i else i);
    ParseFormatNat(if i < 0 then -i else i);
    if i < 0 {
      var s := "-" + digits;
      assert s[1..] == digits;
      assert ParseInt(s) == Some(-(ParseNat(digits) as int));
    } else {
      assert IsDigit(digits[0]);
      assert ParseInt(digits) == Some(ParseNat(digits) as int);
    }
  }

  function Repeat(c: char, n: nat): (s: string)
    ensures |s| == n && forall i :: 0 <= i < n ==> s[i] == c
  {
    if n == 0 then [] else [c] + Repeat(c, n - 1)
  }

  /** `f"{n:0{width}d}"` for a non-negative `n`: padded on the left with zeros
      to at least `width` characters. */
  function ZeroPad(n: nat, width: nat): (s: string)
    ensures AllDigits(s)
  {
    var digits := FormatNat(n);
    if |digits| < width then Repeat('0', width - |digits|) + digits else digits
  }

  lemma {:induction false} LeadingZeros(z: nat, s: string)
    requires AllDigits(s)
    ensures AllDigits(Repeat('0', z) + s)
    ensures ParseNat(Repeat('0', z) + s) == ParseNat(s)
    decreases |s|, z
  {
    var t := Repeat('0', z) + s;
    if s == [] {
      assert t == Repeat('0', z);
      if z > 0 {
        assert t[..|t| - 1] == Repeat('0', z - 1) + [];
        LeadingZeros(z - 1, []);
      }
    } else {
      assert t[..|t| - 1] == Repeat('0', z) + s[..|s| - 1];
      LeadingZeros(z, s[..|s| - 1]);
    }
  }

  /** A zero-padded number reads back as the number, whatever the width, and
      is at least `width` characters long. */
  lemma ZeroPadParse(n: nat, width: nat)
    ensures ParseNat(ZeroPad(n, width)) == n
    ensures |ZeroPad(n, width)| >= width
  {
    ParseFormatNat(n);
    var digits := FormatNat(n);
    if |digits| < width {
      LeadingZeros(width - |digits|, digits);
      assert ZeroPad(n, width) == Repeat('0', width - |digits|) + digits;
    }
  }

  /** Different numbers give different padded texts. */
  lemma ZeroPadInjective(a: nat, b: nat, width: nat)
    requires ZeroPad(a, width) == ZeroPad(b, width)
    ensures a == b
  {
    ZeroPadParse(a, width);
    ZeroPadParse(b, width);
  }

  function Pow10(k: nat): (p: nat)
    ensures p >= 1
  {
    if k == 0 then 1 else 10 * Pow10(k - 1)
  }

  /** The value of a whole part followed by the fraction digits `frac`. */
  function DecimalValue(whole: nat, frac: string): real
    requires AllDigits(frac)
  {
    whole as real + ParseNat(frac) as real / Pow10(|frac|) as real
  }

  /** `float(s)` without sign, on trimmed text: digits with at most one decimal
      point and at least one digit. */
  function ParseUnsignedDecimal(s: string): Option<real> {
    var parts := Split(s, '.');
    if |parts| == 1 then
      if |s| > 0 && AllDigits(s) then Some(ParseNat(s) as real) else None
    else if |parts| == 2 && AllDigits(parts[0]) && AllDigits(parts[1]) && |parts[0]| + |parts[1]| > 0 then
      Some(DecimalValue(ParseNat(parts[0]), parts[1]))
    else None
  }

  /** `float(s)` on trimmed text: an optional sign and a decimal numeral. */
  function ParseDecimal(s: string): Option<real> {
    if |s| > 0 && (s[0] == '-' || s[0] == '+') then
      match ParseUnsignedDecimal(s[1..])
      case Some(r) => Some(if s[0] == '-' then -r else r)
      case None => None
    else ParseUnsignedDecimal(s)
  }

  /** The number of whole hundredths in `r`, rounded down. */
  function Cents(r: real): int {
    (r * 100.0).Floor
  }

  predicate WholeCents(r: real) {
    Cents(r) as real == r * 100.0
  }

  /** Below 10**16 in magnitude Python's `str()` writes a float in positional
      notation; from there on it switches to an exponent (`1e+16`). */
  predicate PositionalFloat(r: real) {
    -10000000000000000.0 < r < 10000000000000000.0
  }

  /** The digits after the point of `str(x)` for `a` hundredths: the shortest
      of one or two digits. */
  function FractionText(a: nat): (frac: string)
    ensures AllDigits(frac) && 1 <= |frac| <= 2
  {
    if a % 100 == 0 then "0"
    else if a % 10 == 0 then [DigitChar(a % 100 / 10)]
    else [DigitChar(a % 100 / 10), DigitChar(a % 10)]
  }

  /** `str(x)` for a float that is a whole number of cents: the integer part, a
      point, and the shortest fraction of one or two digits (`10.0`, `9.5`,
      `9.99`). */
  function FormatDecimal(r: real): string {
    var c := Cents(r);
    if c < 0 then "-" + UnsignedDecimalText(-c) else UnsignedDecimalText(c)
  }

  /** The text of `a` hundredths without a sign: whole part, point, fraction. */
  function UnsignedDecimalText(a: nat): string {
    FormatNat(a / 100) + "." + FractionText(a)
  }

  lemma UnsignedText(q: nat, frac: string)
    requires AllDigits(frac) && |frac| >= 1
    ensures ParseUnsignedDecimal(FormatNat(q) + "." + frac)
         == Some(DecimalValue(q, frac))
  {
    var w := FormatNat(q);
    SplitAtPoint(w, frac);
    ParseFormatNat(q);
    UnsignedParts(w + "." + frac, w, frac);
  }

  /** Two digit strings joined by a point split back into the two. */
  lemma SplitAtPoint(w: string, frac: string)
    requires AllDigits(w) && AllDigits(frac)
    ensures Split(w + "." + frac, '.') == [w, frac]
  {
    assert '.' !in w && '.' !in frac by {
      assert forall i :: 0 <= i < |w| ==> w[i] != '.';
      assert forall i :: 0 <= i < |frac| ==> frac[i] != '.';
    }
    assert Join([w, frac], '.') == w + "." + frac;
    SplitJoin([w, frac], '.');
  }

  /** Text that splits at its point into a whole part and a non-empty
      fraction, both digits, reads as their combined value. */
  lemma UnsignedParts(s: string, w: string, frac: string)
    requires Split(s, '.') == [w, frac] && AllDigits(w) && AllDigits(frac) && |frac| >= 1
    ensures ParseUnsignedDecimal(s) == Some(DecimalValue(ParseNat(w), frac))
  {
  }

  lemma ParseOneDigit(x: nat)
    requires x < 10
    ensures ParseNat([DigitChar(x)]) == x
  {
    var t := [DigitChar(x)];
    assert t[..0] == [];
  }

  lemma ParseTwoDigits(x: nat, y: nat)
    requires x < 10 && y < 10
    ensures ParseNat([DigitChar(x), DigitChar(y)]) == 10 * x + y
  {
    var t := [DigitChar(x), DigitChar(y)];
    assert t[..1] == [DigitChar(x)];
    ParseOneDigit(x);
    assert ParseNat(t) == ParseNat(t[..1]) * 10 + DigitValue(t[1]);
  }

  /** The text before and after the point denotes `a` hundredths. */
  lemma FractionValue(a: nat)
    ensures DecimalValue(a / 100, FractionText(a)) == a as real / 100.0
  {
    var q, t, u := a / 100, a % 100 / 10, a % 10;
    HundredthsDigits(a);
    if a % 100 == 0 {
      OneDigitValue(q, 0);
    } else if u == 0 {
      OneDigitValue(q, t);
    } else {
      TwoDigitValue(q, t, u);
    }
  }

  /** `a` is its hundreds, tens and units; the last two are zero together
      exactly when `a` is a multiple of a hundred. */
  lemma HundredthsDigits(a: nat)
    ensures a == 100 * (a / 100) + 10 * (a % 100 / 10) + a % 10
    ensures a % 100 / 10 < 10 && a % 10 < 10
    ensures a % 100 == 0 <==> a % 100 / 10 == 0 && a % 10 == 0
  {
  }

  lemma OneDigitValue(q: nat, d: nat)
    requires d < 10
    ensures DecimalValue(q, [DigitChar(d)]) == (100 * q + 10 * d) as real / 100.0
  {
    ParseOneDigit(d);
    assert Pow10(1) == 10;
  }

  lemma TwoDigitValue(q: nat, x: nat, y: nat)
    requires x < 10 && y < 10
    ensures DecimalValue(q, [DigitChar(x), DigitChar(y)]) == (100 * q + 10 * x + y) as real / 100.0
  {
    ParseTwoDigits(x, y);
    assert Pow10(2) == 100;
  }

  /** `float(str(x)) == x` for a float that is a whole number of cents. */
  lemma ParseFormatDecimal(r: real)
    requires WholeCents(r)
    ensures ParseDecimal(FormatDecimal(r)) == Some(r)
  {
    var c := Cents(r);
    var a: nat := if c < 0 then -c else c;
    UnsignedFormat(a);
    CentsValue(r);
    if c < 0 {
      NegativeFormat(r, a);
    } else {
      NonNegativeFormat(r, a);
    }
  }

  /** The unsigned text of `a` hundredths starts and ends with a digit and
      holds digits and a point only. */
  lemma UnsignedDecimalShape(a: nat)
    ensures var u := UnsignedDecimalText(a);
      |u| >= 3 && IsDigit(u[0]) && IsDigit(u[|u| - 1]) && u[|FormatNat(a / 100)|] == '.' &&
      forall k :: 0 <= k < |u| ==> IsDigit(u[k]) || u[k] == '.'
  {
    var w, f := FormatNat(a / 100), FractionText(a);
    var u := UnsignedDecimalText(a);
    forall k | 0 <= k < |u|
      ensures IsDigit(u[k]) || u[k] == '.'
    {
      if k < |w| {
        assert u[k] == w[k];
      } else if k > |w| {
        assert u[k] == f[k - |w| - 1];
      }
    }
  }

  /** The unsigned text of `a` hundredths starts with a digit and reads back as them. */
  lemma UnsignedFormat(a: nat)
    ensures ParseUnsignedDecimal(UnsignedDecimalText(a)) == Some(a as real / 100.0)
    ensures IsDigit(UnsignedDecimalText(a)[0])
  {
    UnsignedText(a / 100, FractionText(a));
    FractionValue(a);
    assert IsDigit(FormatNat(a / 100)[0]);
  }

  lemma NegativeFormat(r: real, a: nat)
    requires FormatDecimal(r) == "-" + UnsignedDecimalText(a) && r == -(a as real / 100.0)
    requires ParseUnsignedDecimal(UnsignedDecimalText(a)) == Some(a as real / 100.0)
    ensures ParseDecimal(FormatDecimal(r)) == Some(r)
  {
    NegatedParse(UnsignedDecimalText(a), a as real / 100.0);
  }

  /** A value that is a whole number of cents is its cents over a hundred. */
  lemma CentsValue(r: real)
    requires WholeCents(r)
    ensures r == Cents(r) as real / 100.0
  {
  }

  /** A minus sign before unsigned decimal text negates what it reads as. */
  lemma NegatedParse(body: string, v: real)
    requires ParseUnsignedDecimal(body) == Some(v)
    ensures ParseDecimal("-" + body) == Some(-v)
  {
    assert ("-" + body)[1..] == body;
  }

  lemma NonNegativeFormat(r: real, a: nat)
    requires WholeCents(r) && Cents(r) >= 0 && a == Cents(r)
    requires ParseUnsignedDecimal(UnsignedDecimalText(a)) == Some(a as real / 100.0)
    requires IsDigit(UnsignedDecimalText(a)[0])
    ensures ParseDecimal(FormatDecimal(r)) == Some(r)
  {
    CentsValue(r);
  }
}
