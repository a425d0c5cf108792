/** The pieces of Python's `str` behaviour the route endpoint depends on:
    `str.isspace`, `str.strip`, and the literals `int()` and `float()` accept. */
module PyText {
  import opened Wrappers

  /** Python's `str.isspace()` for one character (Unicode White_Space
      as CPython tabulates it). */
  predicate IsSpace(c: char) {
    ('\U{0009}' <= c <= '\U{000D}') || ('\U{001C}' <= c <= '\U{001F}') || c == ' ' ||
    c == '\U{0085}' || c == '\U{00A0}' || c == '\U{1680}' ||
    ('\U{2000}' <= c <= '\U{200A}') || c == '\U{2028}' || c == '\U{2029}' ||
    c == '\U{202F}' || c == '\U{205F}' || c == '\U{3000}'
  }

  /** `s.lstrip()`. */
  function TrimStart(s: string): string {
    if s != [] && IsSpace(s[0]) then TrimStart(s[1..]) else s
  }

  /** `s.rstrip()`. */
  function TrimEnd(s: string): string {
    if s != [] && IsSpace(s[|s| - 1]) then TrimEnd(s[..|s| - 1]) else s
  }

  /** `s.strip()`. */
  function Strip(s: string): string {
    TrimEnd(TrimStart(s))
  }

  /** `s.lstrip()` is the suffix of `s` left after its leading whitespace. */
  lemma {:induction false} TrimStartShape(s: string)
    ensures var r := TrimStart(s);
      |r| <= |s| && r == s[|s| - |r|..] && (r == [] || !IsSpace(r[0])) &&
      forall i :: 0 <= i < |s| - |r| ==> IsSpace(s[i])
  {
    if s != [] && IsSpace(s[0]) {
      var t := s[1..];
      TrimStartShape(t);
      var r := TrimStart(t);
      assert t[|t| - |r|..] == s[|s| - |r|..];
      forall i | 0 <= i < |s| - |r| ensures IsSpace(s[i]) {
        if i > 0 {
          assert s[i] == t[i - 1];
        }
      }
    }
  }

  /** `s.rstrip()` is the prefix of `s` left after its trailing whitespace. */
  lemma {:induction false} TrimEndShape(s: string)
    ensures var r := TrimEnd(s);
      |r| <= |s| && r == s[..|r|] && (r == [] || !IsSpace(r[|r| - 1])) &&
      forall i :: |r| <= i < |s| ==> IsSpace(s[i])
  {
    if s != [] && IsSpace(s[|s| - 1]) {
      var t := s[..|s| - 1];
      TrimEndShape(t);
      var r := TrimEnd(t);
      assert t[..|r|] == s[..|r|];
      forall i | |r| <= i < |s| ensures IsSpace(s[i]) {
        if i < |t| {
          assert s[i] == t[i];
        }
      }
    }
  }

  /** `s.strip()` is a slice of `s` that neither starts nor ends with
      whitespace, and everything cut off around it is whitespace. */
  lemma StripIsTrimmedSlice(s: string)
    ensures exists a, b :: (0 <= a <= b <= |s| && Strip(s) == s[a..b] &&
                            (forall i :: 0 <= i < a ==> IsSpace(s[i])) &&
                            (forall i :: b <= i < |s| ==> IsSpace(s[i])))
    ensures Strip(s) == [] || (!IsSpace(Strip(s)[0]) && !IsSpace(Strip(s)[|Strip(s)| - 1]))
  {
    var t := TrimStart(s);
    TrimStartShape(s);
    TrimEndShape(t);
    var a := |s| - |t|;
    var b := a + |TrimEnd(t)|;
    assert Strip(s) == s[a..b];
    forall i | b <= i < |s| ensures IsSpace(s[i]) {
      assert s[i] == t[i - a];
    }
    if Strip(s) != [] {
      var r := Strip(s);
      assert t != [] && t[0] == r[0];
    }
  }

  /** A string is blank after `strip()` exactly when every character of it
      is whitespace. */
  lemma {:induction false} StripBlank(s: string)
    ensures Strip(s) == [] <==> forall i :: 0 <= i < |s| ==> IsSpace(s[i])
  {
    var t := TrimStart(s);
    TrimStartShape(s);
    TrimEndShape(t);
    if t != [] {
      assert TrimEnd(t) != [] by {
        assert !IsSpace(t[0]);
      }
      assert s[|s| - |t|] == t[0];
    }
  }

  /** A string with no whitespace at either end is its own `strip()`. */
  lemma StripUntrimmed(s: string)
    requires s == [] || (!IsSpace(s[0]) && !IsSpace(s[|s| - 1]))
    ensures Strip(s) == s
  {
    assert TrimStart(s) == s;
  }

  /** `s.strip().strip() == s.strip()`. */
  lemma StripIdempotent(s: string)
    ensures Strip(Strip(s)) == Strip(s)
  {
    StripIsTrimmedSlice(s);
    StripUntrimmed(Strip(s));
  }

  /** An ASCII decimal digit. */
  predicate IsDigit(c: char) {
    '0' <= c <= '9'
  }

  /** Python's `digitpart`: digits, with single underscores allowed between
      two digits (PEP 515). */
  predicate IsDigitPart(s: string) {
    |s| > 0 && IsDigit(s[0]) && IsDigit(s[|s| - 1]) &&
    (forall i :: 0 <= i < |s| ==> IsDigit(s[i]) || s[i] == '_') &&
    (forall i :: 0 <= i < |s| - 1 ==> s[i] == '_' ==> s[i + 1] != '_')
  }

  /** The number a run of digits and underscores denotes. */
  function DigitsValue(s: string): (n: nat)
    requires forall i :: 0 <= i < |s| ==> IsDigit(s[i]) || s[i] == '_'
  {
    if s == [] then 0
    else if s[|s| - 1] == '_' then DigitsValue(s[..|s| - 1])
    else
      assert IsDigit(s[|s| - 1]);
      10 * DigitsValue(s[..|s| - 1]) + (s[|s| - 1] as int - '0' as int)
  }

  /** The optional sign in front of an `int()` or `float()` literal. */
  predicate IsSign(c: char) {
    c == '+' || c == '-'
  }

  /** `int(s)` for a string `s`, base 10: surrounding whitespace, an optional
      sign and a digit part; `None` where Python raises `ValueError`. */
  function ParseInt(s: string): (r: Option<int>)
    ensures r.Some? <==> var t := Strip(s);
      (IsDigitPart(t) || (|t| > 1 && IsSign(t[0]) && IsDigitPart(t[1..])))
    ensures r.Some? && |Strip(s)| > 0 && Strip(s)[0] == '-' ==> r.value <= 0
    ensures r.Some? && (|Strip(s)| == 0 || Strip(s)[0] != '-') ==> r.value >= 0
  {
    var t := Strip(s);
    if |t| > 0 && IsSign(t[0]) then
      if IsDigitPart(t[1..]) then
        var n: int := DigitsValue(t[1..]);
        Some(if t[0] == '-' then -n else n)
      else None
    else if IsDigitPart(t) then Some(DigitsValue(t))
    else None
  }

  /** The decimal digits of `n`, most significant first, as `str(n)`
      writes them. */
  function Digits(n: nat): string
  {
    if n < 10 then [('0' as int + n) as char]
    else Digits(n / 10) + [('0' as int + n % 10) as char]
  }

  /** `str(n)` for an int. */
  function Decimal(n: int): string {
    if n < 0 then "-" + Digits(-n) else Digits(n)
  }

  /** `str(n)` of a natural number is a digit part that denotes `n`. */
  lemma {:induction false} DigitsDenote(n: nat)
    ensures var s := Digits(n);
      |s| > 0 && (forall i :: 0 <= i < |s| ==> IsDigit(s[i])) && DigitsValue(s) == n
  {
    if n >= 10 {
      DigitsDenote(n / 10);
      var s, front := Digits(n), Digits(n / 10);
      assert s[..|s| - 1] == front;
      forall i | 0 <= i < |s| ensures IsDigit(s[i]) {
        if i < |front| {
          assert s[i] == front[i];
        }
      }
    }
  }

  /** `int(str(n)) == n`. */
  lemma ParseIntRoundTrip(n: int)
    ensures ParseInt(Decimal(n)) == Some(n)
  {
    var m: nat := if n < 0 then -n else n;
    DigitsDenote(m);
    var d := Digits(m);
    assert IsDigitPart(d);
    var t := Decimal(n);
    if n < 0 {
      assert t[1..] == d;
      assert t[|t| - 1] == d[|d| - 1];
    }
    StripUntrimmed(t);
  }

  /** Index of the first character of `s` in `cs`, or `|s|` when there is none. */
  function Find(s: string, cs: set<char>): (i: nat)
    ensures i <= |s|
    ensures i < |s| ==> s[i] in cs
    ensures forall j :: 0 <= j < i ==> s[j] !in cs
  {
    if s == [] || s[0] in cs then 0 else 1 + Find(s[1..], cs)
  }

  /** `s` with the ASCII capitals lowered, as the literal checks compare it. */
  function LowerAscii(s: string): (r: string)
    ensures |r| == |s|
  {
    if s == [] then []
    else [if 'A' <= s[0] <= 'Z' then (s[0] as int + 32) as char else s[0]] + LowerAscii(s[1..])
  }

  /** The mantissa of a Python float literal: `digitpart "." [digitpart]`,
      `"." digitpart` or `digitpart`. */
  predicate IsMantissa(m: string) {
    var d := Find(m, {'.'});
    if d == |m| then IsDigitPart(m)
    else
      var whole, frac := m[..d], m[d + 1..];
      (whole == [] || IsDigitPart(whole)) && (frac == [] || IsDigitPart(frac)) &&
      (whole != [] || frac != [])
  }

  /** The digits after `e`/`E`: an optional sign and a digit part. */
  predicate IsExponent(x: string) {
    if |x| > 0 && IsSign(x[0]) then IsDigitPart(x[1..]) else IsDigitPart(x)
  }

  /** An unsigned Python float literal: a decimal number, `inf`, `infinity`
      or `nan` (the last three in any case). */
  predicate IsUnsignedFloat(u: string) {
    var lower := LowerAscii(u);
    lower == "inf" || lower == "infinity" || lower == "nan" ||
    var e := Find(u, {'e', 'E'});
    IsMantissa(u[..e]) && (e == |u| || IsExponent(u[e + 1..]))
  }

  /** `float(s)` does not raise `ValueError`. */
  predicate IsFloatLiteral(s: string) {
    var t := Strip(s);
    if |t| > 0 && IsSign(t[0]) then IsUnsignedFloat(t[1..]) else IsUnsignedFloat(t)
  }

  /** A digit part is an unsigned float literal: it has no `e` and no `.`. */
  lemma DigitPartIsUnsignedFloat(u: string)
    requires IsDigitPart(u)
    ensures IsUnsignedFloat(u)
  {
    var e := Find(u, {'e', 'E'});
    assert u[..e] == u;
  }

  /** Every string `int()` accepts, `float()` accepts too. */
  lemma IntLiteralIsFloatLiteral(s: string)
    requires ParseInt(s).Some?
    ensures IsFloatLiteral(s)
  {
    var t := Strip(s);
    if |t| > 0 && IsSign(t[0]) {
      DigitPartIsUnsignedFloat(t[1..]);
    } else {
      DigitPartIsUnsignedFloat(t);
    }
  }
}
