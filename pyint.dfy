/**
 * Python's `int(x)` as the Ohmage client applies it to error codes: the
 * server sends codes as zero-padded decimal strings ("0200"), and
 * `OhmageApiException.codes` turns each into an integer.
 */
module PyInt {
  import opened PyValues

  /** The characters C's `isspace` accepts, which `int()` strips around a literal. */
  predicate IsSpace(c: char) {
    c == ' ' || c == '\t' || c == '\n' || c == '\r' || c == 11 as char || c == 12 as char
  }

  predicate IsDigit(c: char) {
    '0' <= c <= '9'
  }

  predicate AllDigits(s: string) {
    forall i :: 0 <= i < |s| ==> IsDigit(s[i])
  }

  function DigitValue(c: char): (d: nat)
    requires IsDigit(c)
    ensures d < 10
  {
    c as int - '0' as int
  }

  function DigitChar(d: nat): (c: char)
    requires d < 10
    ensures IsDigit(c) && DigitValue(c) == d
  {
    ('0' as int + d) as char
  }

  /** The value of a string of decimal digits, most significant digit first. */
  function DigitsValue(s: string): nat
    requires AllDigits(s)
  {
    if s == [] then 0 else DigitsValue(s[..|s| - 1]) * 10 + DigitValue(s[|s| - 1])
  }

  /** The shortest decimal rendering of `n`: the partner of DigitsValue. */
  function Decimal(n: nat): (s: string)
    ensures |s| > 0 && AllDigits(s)
    ensures n > 0 ==> s[0] != '0'
  {
    if n < 10 then [DigitChar(n)] else Decimal(n / 10) + [DigitChar(n % 10)]
  }

  function Zeros(k: nat): (s: string)
    ensures |s| == k && AllDigits(s)
    ensures forall i :: 0 <= i < k ==> s[i] == '0'
  {
    if k == 0 then [] else Zeros(k - 1) + ['0']
  }

  /** `s` padded on the left with zeros to at least `width` characters, as the
      server writes its four-digit error codes. */
  function ZeroPad(s: string, width: nat): (r: string)
    ensures |r| == if |s| < width then width else |s|
    ensures AllDigits(s) ==> AllDigits(r)
  {
    if |s| < width then Zeros(width - |s|) + s else s
  }

  function TrimStart(s: string): (r: string)
    ensures |r| <= |s| && r == s[|s| - |r|..]
    ensures r != [] ==> !IsSpace(r[0])
  {
    if s != [] && IsSpace(s[0]) then TrimStart(s[1..]) else s
  }

  function TrimEnd(s: string): (r: string)
    ensures |r| <= |s| && r == s[..|r|]
    ensures r != [] ==> !IsSpace(r[|r| - 1])
  {
    if s != [] && IsSpace(s[|s| - 1]) then TrimEnd(s[..|s| - 1]) else s
  }

  /** `s` without the whitespace around it. */
  function Strip(s: string): string {
    TrimEnd(TrimStart(s))
  }

  /** An already stripped literal: an optional sign, then one or more decimal
      digits; anything else is None. */
  function ParseLiteral(t: string): (r: Option<int>)
  {
    if t != [] && (t[0] == '+' || t[0] == '-') then
      var d := t[1..];
      if d != [] && AllDigits(d) then
        var v: int := DigitsValue(d);
        Some(if t[0] == '-' then -v else v)
      else None
    else if t != [] && AllDigits(t) then Some(DigitsValue(t))
    else None
  }

  /** `int(s)` for a str `s`; None stands for the ValueError it raises. */
  function ParseInt(s: string): (r: Option<int>)
  {
    ParseLiteral(Strip(s))
  }

  /** Python `int(v)` for the values a decoded `code` entry can hold. */
  function IntOf(v: Json): (r: Result<int>)
    ensures v.JStr? ==> (r.Success? <==> ParseInt(v.s).Some?)
    ensures v.JStr? && r.Success? ==> r.value == ParseInt(v.s).value
    ensures v.JInt? ==> r == Success(v.i)
    ensures v.JBool? ==> r == Success(if v.b then 1 else 0)
    ensures v.JNull? || v.JArr? || v.JObj? ==> r == Failure(TypeError)
    ensures r.Failure? ==> r.error == (if v.JStr? then ValueError else TypeError)
  {
    match v
    case JInt(i) => Success(i)
    case JBool(b) => Success(if b then 1 else 0)
    case JStr(s) =>
      (match ParseInt(s)
       case Some(n) => Success(n)
       case None => Failure(ValueError))
    case _ => Failure(TypeError)
  }

  // ---------------------------------------------------------------------
  // Properties of the decimal reading

  lemma DigitsValueSnoc(s: string, c: char)
    requires AllDigits(s) && IsDigit(c)
    ensures AllDigits(s + [c]) && DigitsValue(s + [c]) == DigitsValue(s) * 10 + DigitValue(c)
  {
    assert (s + [c])[..|s + [c]| - 1] == s;
  }

  /** Reading back the decimal rendering of `n` yields `n`. */
  lemma {:induction false} DecimalRoundTrip(n: nat)
    ensures DigitsValue(Decimal(n)) == n
  {
    if n >= 10 {
      DecimalRoundTrip(n / 10);
      DigitsValueSnoc(Decimal(n / 10), DigitChar(n % 10));
    }
  }

  lemma {:induction false} ZerosValue(k: nat)
    ensures DigitsValue(Zeros(k)) == 0
  {
    if k > 0 {
      ZerosValue(k - 1);
      DigitsValueSnoc(Zeros(k - 1), '0');
    }
  }

  /** Leading zeros do not change the value of a digit string. */
  lemma {:induction false} LeadingZeros(k: nat, s: string)
    requires AllDigits(s)
    ensures AllDigits(Zeros(k) + s) && DigitsValue(Zeros(k) + s) == DigitsValue(s)
  {
    if s == [] {
      assert Zeros(k) + s == Zeros(k);
      ZerosValue(k);
    } else {
      var init, last := s[..|s| - 1], s[|s| - 1];
      assert s == init + [last];
      LeadingZeros(k, init);
      assert Zeros(k) + s == (Zeros(k) + init) + [last];
      DigitsValueSnoc(Zeros(k) + init, last);
      DigitsValueSnoc(init, last);
    }
  }

  /** A digit string is its own trimmed form. */
  lemma TrimDigits(s: string)
    requires s != [] && AllDigits(s)
    ensures Strip(s) == s
  {
    assert !IsSpace(s[0]) && !IsSpace(s[|s| - 1]);
  }

  /** A bare digit string reads as its decimal value. */
  lemma ParseDigits(s: string)
    requires s != [] && AllDigits(s)
    ensures ParseInt(s) == Some(DigitsValue(s))
  {
    TrimDigits(s);
    assert IsDigit(s[0]);
  }

  /** `int()` reads a zero-padded decimal code back to its number, whatever the
      padding width: `int("0200") == 200`. */
  lemma ParsePaddedCode(n: nat, width: nat)
    ensures ParseInt(ZeroPad(Decimal(n), width)) == Some(n)
  {
    var d := Decimal(n);
    var p := ZeroPad(d, width);
    DecimalRoundTrip(n);
    if |d| < width {
      assert p == Zeros(width - |d|) + d;
      LeadingZeros(width - |d|, d);
    } else {
      assert p == d;
    }
    assert AllDigits(p) && DigitsValue(p) == n;
    ParseDigits(p);
  }

  /** A minus sign negates the digits that follow it. */
  lemma ParseNegative(d: string)
    requires d != [] && AllDigits(d)
    ensures ParseInt("-" + d) == Some(0 - DigitsValue(d))
  {
    var s := "-" + d;
    assert s[0] == '-' && s[1..] == d;
    ParseSigned(s);
  }

  lemma ParseSigned(s: string)
    requires |s| > 1 && s[0] == '-' && AllDigits(s[1..])
    ensures ParseInt(s) == Some(0 - DigitsValue(s[1..]))
  {
    StripSigned(s);
    NegativeLiteral(s);
  }

  lemma StripSigned(s: string)
    requires |s| > 1 && s[0] == '-' && AllDigits(s[1..])
    ensures Strip(s) == s
  {
    assert TrimStart(s) == s;
    assert s[|s| - 1] == s[1..][|s| - 2];
    assert !IsSpace(s[|s| - 1]);
  }

  lemma NegativeLiteral(t: string)
    requires |t| > 1 && t[0] == '-' && AllDigits(t[1..])
    ensures ParseLiteral(t) == Some(0 - DigitsValue(t[1..]))
  {
  }

  /** A run of whitespace characters, as `int()` strips around a literal. */
  predicate AllSpace(w: string) {
    forall i :: 0 <= i < |w| ==> IsSpace(w[i])
  }

  /** Any whitespace before and after the literal is ignored. */
  lemma ParseIgnoresSpace(w1: string, s: string, w2: string)
    requires AllSpace(w1) && AllSpace(w2)
    ensures ParseInt(w1 + s + w2) == ParseInt(s)
  {
    StripIgnoresSpace(w1, s, w2);
  }

  lemma StripIgnoresSpace(w1: string, s: string, w2: string)
    requires AllSpace(w1) && AllSpace(w2)
    ensures Strip(w1 + s + w2) == Strip(s)
  {
    var t := s + w2;
    assert w1 + s + w2 == w1 + t;
    TrimStartSpaces(w1, t);
    assert TrimStart(w1 + s + w2) == TrimStart(t);
    TrimStartAppend(s, w2);
    if TrimStart(s) != [] {
      assert TrimStart(t) == TrimStart(s) + w2;
      TrimEndSpaces(TrimStart(s), w2);
    } else {
      assert TrimStart(t) == [];
    }
  }

  /** Leading whitespace is dropped by TrimStart. */
  lemma {:induction false} TrimStartSpaces(w: string, t: string)
    requires AllSpace(w)
    ensures TrimStart(w + t) == TrimStart(t)
  {
    if w == [] {
      assert w + t == t;
    } else {
      assert (w + t)[0] == w[0];
      assert (w + t)[1..] == w[1..] + t;
      TrimStartSpaces(w[1..], t);
    }
  }

  /** Trailing whitespace is dropped by TrimEnd. */
  lemma {:induction false} TrimEndSpaces(t: string, w: string)
    requires AllSpace(w)
    ensures TrimEnd(t + w) == TrimEnd(t)
  {
    if w == [] {
      assert t + w == t;
    } else {
      var x := t + w;
      assert x[|x| - 1] == w[|w| - 1];
      assert x[..|x| - 1] == t + w[..|w| - 1];
      TrimEndSpaces(t, w[..|w| - 1]);
    }
  }

  /** Trailing whitespace survives TrimStart unless everything is whitespace. */
  lemma {:induction false} TrimStartAppend(s: string, w: string)
    requires AllSpace(w)
    ensures TrimStart(s + w) == if TrimStart(s) == [] then [] else TrimStart(s) + w
  {
    if s == [] {
      assert s + w == w + [];
      TrimStartSpaces(w, []);
    } else if IsSpace(s[0]) {
      assert (s + w)[1..] == s[1..] + w;
      TrimStartAppend(s[1..], w);
    } else {
      assert (s + w)[0] == s[0];
    }
  }

  /** The error code that the client documents for failed authentication. */
  lemma AuthCodeParses()
    ensures ParseInt("0200") == Some(200)
  {
    var s := "0200";
    assert s[..3] == "020" && "020"[..2] == "02" && "02"[..1] == "0" && "0"[..0] == [];
    assert DigitsValue(s) == 200;
    ParseDigits(s);
  }
}
