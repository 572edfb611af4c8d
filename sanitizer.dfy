/** The operator-input recogniser `sanitize_input` and the range check `validate_input`.
    The text is the operator's line after `strip()`, over ASCII; the value is the exact
    decimal it denotes (no floating-point rounding). */
module Sanitizer {
  import opened Outcomes

  predicate IsDigit(c: char) { '0' <= c <= '9' }

  predicate AllDigits(s: string) { forall i :: 0 <= i < |s| ==> IsDigit(s[i]) }

  /** One or more decimal digits: the regex `\d+` over ASCII. */
  predicate IsDigits(s: string) { |s| > 0 && AllDigits(s) }

  /** The optional `(?:\.\d+)` part of a literal. */
  datatype Fraction = NoFraction | Fraction(digits: string)

  /** The parts of a literal `-?\d+(?:\.\d+)?`. */
  datatype Numeral = Numeral(negative: bool, whole: string, fraction: Fraction)

  predicate WellFormed(n: Numeral)
  {
    IsDigits(n.whole) && (n.fraction.Fraction? ==> IsDigits(n.fraction.digits))
  }

  /** The text of a numeral: the reference grammar the recogniser is judged against. */
  function Render(n: Numeral): string
  {
    (if n.negative then "-" else "") + n.whole + FractionText(n.fraction)
  }

  /** The text of the optional fraction part: nothing, or '.' and its digits. */
  function FractionText(f: Fraction): string
  {
    match f
    case NoFraction => ""
    case Fraction(d) => "." + d
  }

  /** The strings the regex `^-?\d+(?:\.\d+)?$` accepts. */
  ghost predicate IsDecimalLiteral(s: string)
  {
    exists n :: WellFormed(n) && Render(n) == s
  }

  function DigitValue(c: char): (d: nat)
    requires IsDigit(c)
    ensures d <= 9
  {
    c as int - '0' as int
  }

  /** The natural number a string of decimal digits denotes, most significant first. */
  function DecimalValue(s: string): nat
    requires AllDigits(s)
  {
    if s == [] then 0 else 10 * DecimalValue(s[..|s| - 1]) + DigitValue(s[|s| - 1])
  }

  function Pow10(k: nat): (p: nat)
    ensures p >= 1
  {
    if k == 0 then 1 else 10 * Pow10(k - 1)
  }

  /** The value of a numeral without its sign: whole part plus fraction digits / 10^k. */
  function Magnitude(n: Numeral): (m: real)
    requires WellFormed(n)
    ensures m >= 0.0
  {
    DecimalValue(n.whole) as real
      + (match n.fraction
         case NoFraction => 0.0
         case Fraction(d) => DecimalValue(d) as real / Pow10(|d|) as real)
  }

  /** The exact value of a numeral. */
  function Value(n: Numeral): real
    requires WellFormed(n)
  {
    if n.negative then -Magnitude(n) else Magnitude(n)
  }

  /** Index of the first '.' in `s`, or `|s|` when there is none. */
  function IndexOfDot(s: string): (i: nat)
    ensures i <= |s|
    ensures i < |s| ==> s[i] == '.'
    ensures forall j :: 0 <= j < i ==> s[j] != '.'
  {
    if s == [] || s[0] == '.' then 0 else 1 + IndexOfDot(s[1..])
  }

  /** Splits an unsigned text at its first '.' into whole part and fraction. */
  function Split(negative: bool, body: string): Numeral
  {
    var i := IndexOfDot(body);
    Numeral(negative, body[..i], if i == |body| then NoFraction else Fraction(body[i + 1..]))
  }

  /** Takes off a leading '-', splits the rest at its first '.', and keeps the split only
      when it is a well-formed numeral. */
  function Parse(s: string): Option<Numeral>
  {
    var negative := |s| > 0 && s[0] == '-';
    var n := Split(negative, if negative then s[1..] else s);
    if WellFormed(n) then Some(n) else None
  }

  /** sanitize_input: the value of the literal, or InvalidFormat. The only error it
      raises is the format error; which texts it accepts, and their value, is stated by
      `SanitizeAcceptsExactlyLiterals` and `SanitizeValue`. */
  function Sanitize(s: string): (r: Result<real>)
    ensures r.Err? ==> r.error == InvalidFormat
    ensures s == [] ==> r.Err?
  {
    match Parse(s)
    case Some(n) => Ok(Value(n))
    case None => Err(InvalidFormat)
  }

  /** validate_input: inclusive range check, `min_val <= value <= max_val`. */
  function Validate(value: real, lo: real, hi: real): (ok: bool)
    ensures ok ==> lo <= hi
  {
    lo <= value <= hi
  }

  lemma {:induction false} IndexOfDotAfterDigits(prefix: string, rest: string)
    requires AllDigits(prefix)
    ensures IndexOfDot(prefix + rest) == |prefix| + IndexOfDot(rest)
  {
    if prefix != [] {
      assert (prefix + rest)[0] == prefix[0] && IsDigit(prefix[0]);
      assert (prefix + rest)[1..] == prefix[1..] + rest;
      IndexOfDotAfterDigits(prefix[1..], rest);
    } else {
      assert prefix + rest == rest;
    }
  }

  /** Splitting digits followed by a fraction's text recovers the two parts. */
  lemma SplitRender(negative: bool, whole: string, f: Fraction)
    requires IsDigits(whole)
    ensures Split(negative, whole + FractionText(f)) == Numeral(negative, whole, f)
  {
    var body := whole + FractionText(f);
    IndexOfDotAfterDigits(whole, FractionText(f));
    assert body[..|whole|] == whole;
    if f.Fraction? {
      assert body[|whole| + 1..] == f.digits;
    }
  }

  /** The sign step of the parser takes exactly the rendered sign off a numeral's text. */
  lemma RenderSign(n: Numeral)
    requires WellFormed(n)
    ensures (|Render(n)| > 0 && Render(n)[0] == '-') == n.negative
    ensures (if n.negative then Render(n)[1..] else Render(n)) == n.whole + FractionText(n.fraction)
  {
    var body := n.whole + FractionText(n.fraction);
    assert Render(n) == (if n.negative then "-" else "") + body;
    assert IsDigit(body[0]);
  }

  /** Parsing the text of a well-formed numeral gives that numeral back. */
  lemma ParseRender(n: Numeral)
    requires WellFormed(n)
    ensures Parse(Render(n)) == Some(n)
  {
    RenderSign(n);
    SplitRender(n.negative, n.whole, n.fraction);
  }

  /** Rendering a split puts the text back together. */
  lemma SplitSound(negative: bool, body: string)
    ensures (if negative then "-" else "") + body == Render(Split(negative, body))
  {
    var i := IndexOfDot(body);
    if i < |body| {
      assert body == body[..i] + "." + body[i + 1..];
    } else {
      assert body == body[..i];
    }
  }

  /** What the parser returns is a well-formed numeral whose text is the input. */
  lemma ParseSound(s: string)
    requires Parse(s).Some?
    ensures WellFormed(Parse(s).value) && Render(Parse(s).value) == s
  {
    var negative := |s| > 0 && s[0] == '-';
    var body := if negative then s[1..] else s;
    SplitSound(negative, body);
    assert s == (if negative then "-" else "") + body;
  }

  /** sanitize_input succeeds exactly on the literals of `^-?\d+(?:\.\d+)?$`. */
  lemma SanitizeAcceptsExactlyLiterals(s: string)
    ensures Sanitize(s).Ok? <==> IsDecimalLiteral(s)
  {
    if IsDecimalLiteral(s) {
      var n :| WellFormed(n) && Render(n) == s;
      ParseRender(n);
    }
    if Sanitize(s).Ok? {
      ParseSound(s);
    }
  }

  /** On an accepted literal the result is the decimal value of its digits. */
  lemma SanitizeValue(n: Numeral)
    requires WellFormed(n)
    ensures Sanitize(Render(n)) == Ok(Value(n))
  {
    ParseRender(n);
  }

  /** Without a leading '-' the value is never negative; with one it is never positive. */
  lemma SanitizeSign(s: string)
    requires Sanitize(s).Ok?
    ensures |s| > 0
    ensures s[0] != '-' ==> Sanitize(s).value >= 0.0
    ensures s[0] == '-' ==> Sanitize(s).value <= 0.0
  {
    var n := Parse(s).value;
    ParseSound(s);
    assert IsDigit(n.whole[0]);
    assert n.negative <==> s[0] == '-' by {
      if !n.negative { assert s[0] == n.whole[0]; }
    }
  }

  /** Where the whole part of a numeral's text starts: after the sign, if any. */
  function SignWidth(n: Numeral): nat { if n.negative then 1 else 0 }

  /** What sits at each position of a numeral's text: the sign, a whole digit, the
      point, or a fraction digit. */
  lemma RenderCharAt(n: Numeral, i: nat)
    requires WellFormed(n) && i < |Render(n)|
    ensures |Render(n)| == SignWidth(n) + |n.whole|
      + (if n.fraction.Fraction? then 1 + |n.fraction.digits| else 0)
    ensures i < SignWidth(n) ==> Render(n)[i] == '-'
    ensures SignWidth(n) <= i < SignWidth(n) + |n.whole| ==> IsDigit(Render(n)[i])
    ensures i == SignWidth(n) + |n.whole| ==> n.fraction.Fraction? && Render(n)[i] == '.'
    ensures i > SignWidth(n) + |n.whole| ==> IsDigit(Render(n)[i])
  {
    var sign := if n.negative then "-" else "";
    assert Render(n) == sign + n.whole + FractionText(n.fraction);
    if i >= SignWidth(n) + |n.whole| + 1 {
      assert Render(n)[i] == n.fraction.digits[i - SignWidth(n) - |n.whole| - 1];
    } else if i >= SignWidth(n) {
      if i < SignWidth(n) + |n.whole| {
        assert Render(n)[i] == n.whole[i - SignWidth(n)];
      }
    }
  }

  /** The shape of a numeral's text, character by character. */
  lemma RenderShape(n: Numeral, s: string)
    requires WellFormed(n) && Render(n) == s
    ensures |s| > 0 && IsDigit(s[|s| - 1])
    ensures s[0] == '-' || IsDigit(s[0])
    ensures s[0] == '-' ==> |s| > 1 && IsDigit(s[1])
    ensures forall i :: 0 < i < |s| ==> IsDigit(s[i]) || s[i] == '.'
    ensures forall i :: 0 <= i < |s| && s[i] == '.' ==> 0 < i < |s| - 1 && IsDigit(s[i - 1]) && IsDigit(s[i + 1])
    ensures forall i, j :: 0 <= i < j < |s| && s[i] == '.' ==> s[j] != '.'
  {
    var point := SignWidth(n) + |n.whole|;
    RenderCharAt(n, 0);
    RenderCharAt(n, |s| - 1);
    if |s| > 1 { RenderCharAt(n, 1); }
    forall i | 0 <= i < |s|
      ensures i < SignWidth(n) ==> s[i] == '-'
      ensures SignWidth(n) <= i < point ==> IsDigit(s[i])
      ensures i == point ==> s[i] == '.'
      ensures i > point ==> IsDigit(s[i])
    {
      RenderCharAt(n, i);
    }
  }

  /** The shape of every accepted text: it starts with '-' or a digit, a '-' is
      followed by a digit, every later character is a digit or '.', there is at most one
      '.', a '.' is preceded and followed by a digit, and the text ends in a digit. */
  lemma AcceptedShape(s: string)
    requires Sanitize(s).Ok?
    ensures |s| > 0 && IsDigit(s[|s| - 1])
    ensures s[0] == '-' || IsDigit(s[0])
    ensures s[0] == '-' ==> |s| > 1 && IsDigit(s[1])
    ensures forall i :: 0 < i < |s| ==> IsDigit(s[i]) || s[i] == '.'
    ensures forall i :: 0 <= i < |s| && s[i] == '.' ==> 0 < i < |s| - 1 && IsDigit(s[i - 1]) && IsDigit(s[i + 1])
    ensures forall i, j :: 0 <= i < j < |s| && s[i] == '.' ==> s[j] != '.'
  {
    ParseSound(s);
    RenderShape(Parse(s).value, s);
  }

  /** Inputs without a digit at both ends are refused: empty, a bare sign, letters, a
      '+' sign, a missing whole part and a missing fraction part. */
  lemma SanitizeRejectsMissingDigits()
    ensures Sanitize("").Err? && Sanitize("-").Err? && Sanitize("abc").Err?
    ensures Sanitize("+7").Err? && Sanitize(".5").Err? && Sanitize("5.").Err?
  {
    if Sanitize("").Ok? { AcceptedShape(""); }
    if Sanitize("-").Ok? { AcceptedShape("-"); }
    if Sanitize("abc").Ok? { AcceptedShape("abc"); }
    if Sanitize("+7").Ok? { AcceptedShape("+7"); }
    if Sanitize(".5").Ok? { AcceptedShape(".5"); }
    if Sanitize("5.").Ok? { AcceptedShape("5."); }
  }

  /** An exponent is refused: only digits and one point may follow the first character. */
  lemma SanitizeRejectsExponent()
    ensures Sanitize("1e5").Err?
  {
    if Sanitize("1e5").Ok? {
      AcceptedShape("1e5");
    }
  }

  /** Two points are refused: the text after the first point is not all digits. */
  lemma SanitizeRejectsTwoPoints()
    ensures Sanitize("7.2.3").Err?
  {
    var s := "7.2.3";
    assert IndexOfDot(s) == 1 by {
      IndexOfDotAfterDigits("7", ".2.3");
      assert s == "7" + ".2.3";
    }
    assert s[2..] == "2.3";
    assert !IsDigit(s[2..][1]);
  }

  /** A bare string of digits denotes its decimal value. */
  lemma SanitizeNatural(s: string)
    requires IsDigits(s)
    ensures Sanitize(s) == Ok(DecimalValue(s) as real)
  {
    var n := Numeral(false, s, NoFraction);
    assert Render(n) == s;
    SanitizeValue(n);
  }

  /** "7" denotes 7. */
  lemma SanitizeSeven()
    ensures Sanitize("7") == Ok(7.0)
  {
    SanitizeNatural("7");
    assert DecimalValue("7") == 7;
  }

  /** "-3.2" denotes -3.2. */
  lemma SanitizeMinusThreePointTwo()
    ensures Sanitize("-3.2") == Ok(-3.2)
  {
    var n := Numeral(true, "3", Fraction("2"));
    assert Render(n) == "-3.2";
    assert DecimalValue("3") == 3 && DecimalValue("2") == 2 && Pow10(1) == 10;
    SanitizeValue(n);
  }

  /** "0.0" denotes 0. */
  lemma SanitizeZeroPointZero()
    ensures Sanitize("0.0") == Ok(0.0)
  {
    var n := Numeral(false, "0", Fraction("0"));
    assert Render(n) == "0.0";
    assert DecimalValue("0") == 0;
    assert Magnitude(n) == 0.0;
    SanitizeValue(n);
  }

  /** Both endpoints of a range are accepted. */
  lemma ValidateEndpoints(lo: real, hi: real)
    requires lo <= hi
    ensures Validate(lo, lo, hi) && Validate(hi, lo, hi)
  {
  }

  /** An empty range (lo > hi) accepts nothing. */
  lemma ValidateEmptyRange(value: real, lo: real, hi: real)
    requires lo > hi
    ensures !Validate(value, lo, hi)
  {
  }

  /** The pH boundary cases: 0, 7 and 14 are accepted, 14.0001 is not. */
  lemma ValidatePhExamples()
    ensures Validate(0.0, 0.0, 14.0) && Validate(7.0, 0.0, 14.0) && Validate(14.0, 0.0, 14.0)
    ensures !Validate(14.0001, 0.0, 14.0)
  {
  }
}
