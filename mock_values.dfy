/** The cell values of the in-memory tables the tests use, and the three Python behaviours the
    mock's filters and its wallet procedure depend on: `str(v)`, the `<` comparison (which
    raises `TypeError` between a number and a text) and `float(v)`. */
module MockValues {
  import opened Wrappers

  /** A cell: `None`, a str, an int, a float or a bool. Nested lists and dicts are not modelled. */
  datatype Value = Null | Text(s: string) | Int(i: int) | Num(x: real) | Bool(b: bool)

  /** A row is a dict from column name to value. */
  type Row = map<string, Value>

  /** The exceptions the mock can raise while executing a query. */
  datatype MockError = TypeMismatch | MissingKey(key: string) | BadNumber(text: string)

  /** `row.get(col)`: an absent column reads as `None`. */
  function Get(r: Row, col: string): Value {
    if col in r then r[col] else Null
  }

  predicate IsDigit(c: char) {
    '0' <= c <= '9'
  }

  function DigitChar(d: nat): (c: char)
    requires d < 10
    ensures IsDigit(c) && (c as int) - ('0' as int) == d
  {
    ('0' as int + d) as char
  }

  /** Decimal digits of a natural number, most significant first, with no leading zero. */
  function NatToString(n: nat): (s: string)
    ensures |s| >= 1 && forall k :: 0 <= k < |s| ==> IsDigit(s[k])
    ensures n > 0 <==> s[0] != '0'
    decreases n
  {
    if n < 10 then [DigitChar(n)] else NatToString(n / 10) + [DigitChar(n % 10)]
  }

  /** `str(i)` for an int. */
  function IntToString(i: int): string {
    if i < 0 then "-" + NatToString(-i) else NatToString(i)
  }

  /** The value of a string of decimal digits. */
  function DigitsValue(s: string): nat
    requires AllDigits(s)
  {
    if |s| == 0 then 0 else DigitsValue(s[..|s| - 1]) * 10 + DigitOf(s[|s| - 1])
  }

  function DigitOf(c: char): nat
    requires IsDigit(c)
  {
    (c as int) - ('0' as int)
  }

  /** Reading the digits of `n` back gives `n`. */
  lemma {:induction false} DigitsRoundTrip(n: nat)
    ensures DigitsValue(NatToString(n)) == n
    decreases n
  {
    if n >= 10 {
      var s := NatToString(n);
      assert s[..|s| - 1] == NatToString(n / 10);
      DigitsRoundTrip(n / 10);
    }
  }

  /** Up to `k` fractional digits of `f` in `[0, 1)`, truncated. */
  function FractionDigits(f: real, k: nat): string
    requires 0.0 <= f < 1.0
    decreases k
  {
    if k == 0 then ""
    else
      var g := f * 10.0;
      var d := g.Floor;
      if d < 0 || d > 9 then ""
      else [DigitChar(d)] + FractionDigits(g - d as real, k - 1)
  }

  function DropTrailingZeros(s: string): string {
    if |s| > 0 && s[|s| - 1] == '0' then DropTrailingZeros(s[..|s| - 1]) else s
  }

  /** `str(x)` for a float, in fixed-point form: a whole number prints with `.0`, a decimal
      with up to seventeen fractional digits prints those digits. */
  function RealToString(x: real): string {
    var m := if x < 0.0 then -x else x;
    var whole := m.Floor;
    var frac := DropTrailingZeros(FractionDigits(m - whole as real, 17));
    (if x < 0.0 then "-" else "") + NatToString(whole) + "." + (if frac == "" then "0" else frac)
  }

  /** `str(v)`, which the equality, `in` and `or` filters compare. */
  function Render(v: Value): string {
    match v
    case Null => "None"
    case Text(s) => s
    case Int(i) => IntToString(i)
    case Num(x) => RealToString(x)
    case Bool(b) => if b then "True" else "False"
  }

  /** A text renders as itself, so text cells compare by their contents. */
  lemma RenderTextInjective(a: string, b: string)
    ensures Render(Text(a)) == Render(Text(b)) <==> a == b
  {
  }

  /** Python's ordering of two strings: by code point at the first difference, else shorter first. */
  predicate LexLess(a: string, b: string) {
    if |a| == 0 then |b| > 0
    else if |b| == 0 then false
    else if a[0] == b[0] then LexLess(a[1..], b[1..])
    else a[0] < b[0]
  }

  /** The string order is a strict total order. */
  lemma {:induction false} LexLessIsStrictTotal(a: string, b: string, c: string)
    ensures !LexLess(a, a)
    ensures a != b ==> (LexLess(a, b) <==> !LexLess(b, a))
    ensures LexLess(a, b) && LexLess(b, c) ==> LexLess(a, c)
  {
    if |a| > 0 {
      LexLessIsStrictTotal(a[1..], a[1..], a[1..]);
    }
    if a != b && |a| > 0 && |b| > 0 && a[0] == b[0] {
      assert a == [a[0]] + a[1..] && b == [b[0]] + b[1..];
      LexLessIsStrictTotal(a[1..], b[1..], b[1..]);
    }
    if LexLess(a, b) && LexLess(b, c) && |a| > 0 && |b| > 0 && |c| > 0 && a[0] == b[0] && b[0] == c[0] {
      LexLessIsStrictTotal(a[1..], b[1..], c[1..]);
    }
  }

  /** The numeric reading of an int, float or bool (a bool is the int 0 or 1 in Python). */
  function NumericOf(v: Value): Option<real> {
    match v
    case Int(i) => Some(i as real)
    case Num(x) => Some(x)
    case Bool(b) => Some(if b then 1.0 else 0.0)
    case _ => None
  }

  /** Python's `a < b`: numbers compare by value, texts by `LexLess`, and any other pair
      raises `TypeError` (None). */
  function PyLess(a: Value, b: Value): (r: Option<bool>)
    ensures r.None? <==> !((NumericOf(a).Some? && NumericOf(b).Some?) || (a.Text? && b.Text?))
  {
    if NumericOf(a).Some? && NumericOf(b).Some? then Some(NumericOf(a).value < NumericOf(b).value)
    else if a.Text? && b.Text? then Some(LexLess(a.s, b.s))
    else None
  }

  /** `s.split(sep)`: the pieces between separators, one more than there are separators. */
  function Split(s: string, sep: char): (r: seq<string>)
    ensures |r| >= 1
    ensures forall k :: 0 <= k < |r| ==> sep !in r[k]
  {
    if |s| == 0 then [""]
    else
      var rest := Split(s[1..], sep);
      if s[0] == sep then [""] + rest else [[s[0]] + rest[0]] + rest[1..]
  }

  /** `sep.join(pieces)`. */
  function Join(pieces: seq<string>, sep: char): string
    requires |pieces| >= 1
  {
    if |pieces| == 1 then pieces[0] else pieces[0] + [sep] + Join(pieces[1..], sep)
  }

  /** Splitting loses nothing: joining the pieces gives the string back. */
  lemma {:induction false} SplitJoinRoundTrip(s: string, sep: char)
    ensures Join(Split(s, sep), sep) == s
  {
    if |s| > 0 {
      var rest := Split(s[1..], sep);
      SplitJoinRoundTrip(s[1..], sep);
      if s[0] == sep {
        assert Split(s, sep)[1..] == rest;
      } else if |rest| == 1 {
        assert Join(Split(s, sep), sep) == [s[0]] + rest[0];
      } else {
        assert Split(s, sep)[1..] == rest[1..];
        assert Join(rest, sep) == rest[0] + [sep] + Join(rest[1..], sep);
      }
      assert s == [s[0]] + s[1..];
    }
  }

  /** A text without the separator is a single piece. */
  lemma {:induction false} SplitWithoutSeparator(s: string, sep: char)
    requires sep !in s
    ensures Split(s, sep) == [s]
  {
    if |s| > 0 {
      SplitWithoutSeparator(s[1..], sep);
      assert s == [s[0]] + s[1..];
    }
  }

  predicate AllDigits(s: string) {
    forall k :: 0 <= k < |s| ==> IsDigit(s[k])
  }

  /** `float(s)` for a decimal text `[+|-]digits[.digits]` with at least one digit. Other
      forms Python accepts (exponents, `inf`, `nan`, surrounding blanks, `_`) are refused. */
  function ParseNumber(s: string): Option<real> {
    if |s| > 0 && s[0] == '-' then
      match ParseUnsigned(s[1..])
      case None => None
      case Some(m) => Some(-m)
    else if |s| > 0 && s[0] == '+' then ParseUnsigned(s[1..])
    else ParseUnsigned(s)
  }

  /** `digits[.digits]`, with at least one digit on either side of the point. */
  function ParseUnsigned(body: string): Option<real> {
    var parts := Split(body, '.');
    if |parts| > 2 then None
    else ParseParts(parts[0], if |parts| == 2 then parts[1] else "")
  }

  /** The digits before and after the point, at least one of them present. */
  function ParseParts(whole: string, frac: string): Option<real> {
    if whole == "" && frac == "" then None
    else if !AllDigits(whole) || !AllDigits(frac) then None
    else Some(DigitsValue(whole) as real + FractionValue(frac))
  }

  /** The value of the digits after the point. */
  function FractionValue(frac: string): (r: real)
    requires AllDigits(frac)
    ensures frac == "" ==> r == 0.0
  {
    DigitsValue(frac) as real / Pow10(|frac|) as real
  }

  function Pow10(n: nat): (p: nat)
    ensures p >= 1
  {
    if n == 0 then 1 else 10 * Pow10(n - 1)
  }

  /** `float(v)`: numbers convert, a decimal text parses, `None` raises `TypeError` and any
      other text raises `ValueError`. */
  function AsFloat(v: Value): (r: Result<real, MockError>)
    ensures NumericOf(v).Some? ==> r == Success(NumericOf(v).value)
    ensures v.Null? ==> r == Failure(TypeMismatch)
  {
    match v
    case Null => Failure(TypeMismatch)
    case Text(s) => if ParseNumber(s).Some? then Success(ParseNumber(s).value) else Failure(BadNumber(s))
    case Int(i) => Success(i as real)
    case Num(x) => Success(x)
    case Bool(b) => Success(if b then 1.0 else 0.0)
  }

  lemma DigitsHaveNoPoint(s: string)
    requires AllDigits(s)
    ensures '.' !in s
  {
  }

  /** Digits with nothing after the point read as their value. */
  lemma WholeDigitsParse(s: string)
    requires |s| >= 1 && AllDigits(s)
    ensures ParseParts(s, "") == Some(DigitsValue(s) as real)
  {
    assert AllDigits("");
  }

  /** A text of digits alone reads as the number it spells. */
  lemma DigitsParse(s: string)
    requires |s| >= 1 && AllDigits(s)
    ensures ParseUnsigned(s) == Some(DigitsValue(s) as real)
  {
    DigitsHaveNoPoint(s);
    SplitWithoutSeparator(s, '.');
    WholeDigitsParse(s);
  }

  /** `float(str(i))` gives `i` back: an int's text parses to its value. */
  lemma IntTextParses(i: int)
    ensures AsFloat(Text(IntToString(i))) == Success(i as real)
  {
    var n: nat := if i < 0 then -i else i;
    var digits := NatToString(n);
    DigitsRoundTrip(n);
    DigitsParse(digits);
    if i < 0 {
      assert IntToString(i)[1..] == digits;
    } else {
      assert digits[0] != '-' && digits[0] != '+' by {
        assert IsDigit(digits[0]);
      }
    }
  }
}
