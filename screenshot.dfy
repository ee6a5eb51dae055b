/** The name of a saved frame (src/Main.cpp:256-257): the "Save Screenshot"
    button writes `./img_<n>.png`, where `<n>` is the renderer's sample count
    rendered by `std::to_string`. */
module Screenshot {

  function DigitChar(d: nat): (c: char)
    requires d < 10
    ensures '0' <= c <= '9'
  {
    "0123456789"[d]
  }

  predicate AllDigits(s: string)
  {
    forall i :: 0 <= i < |s| ==> '0' <= s[i] <= '9'
  }

  /** The decimal digits of `n`, most significant first, without leading zeros. */
  function Digits(n: nat): (s: string)
    ensures |s| >= 1 && AllDigits(s)
    decreases n
  {
    if n < 10 then [DigitChar(n)] else Digits(n / 10) + [DigitChar(n % 10)]
  }

  /** `std::to_string` of an `int`: a minus sign for negative values,
      followed by the decimal digits of the magnitude. */
  function IntToString(n: int): (s: string)
    ensures |s| >= 1
    ensures s[0] == '-' <==> n < 0
    ensures n >= 0 ==> '0' <= s[0] <= '9'
    ensures forall i :: 0 < i < |s| ==> '0' <= s[i] <= '9'
  {
    if n < 0 then "-" + Digits(-n) else Digits(n)
  }

  /** The file name a screenshot taken at `sampleCount` samples is saved under. */
  function ScreenshotName(sampleCount: int): (name: string)
    ensures |name| == |IntToString(sampleCount)| + 10
    ensures name[..6] == "./img_" && name[|name| - 4..] == ".png"
    ensures name[6..|name| - 4] == IntToString(sampleCount)
  {
    "./img_" + IntToString(sampleCount) + ".png"
  }

  /** Reads a string of decimal digits back as a number. */
  function DecimalValue(s: string): nat
    requires AllDigits(s)
    decreases |s|
  {
    if s == [] then 0
    else DecimalValue(s[..|s| - 1]) * 10 + (s[|s| - 1] - '0') as nat
  }

  lemma {:induction false} DigitsRoundTrip(n: nat)
    ensures DecimalValue(Digits(n)) == n
    decreases n
  {
    if n >= 10 {
      var s := Digits(n);
      assert s[..|s| - 1] == Digits(n / 10);
      DigitsRoundTrip(n / 10);
      assert "0123456789"[n % 10] - '0' == (n % 10) as char;
    } else {
      assert "0123456789"[n] - '0' == n as char;
    }
  }

  lemma IntToStringInjective(a: int, b: int)
    requires IntToString(a) == IntToString(b)
    ensures a == b
  {
    SameSign(a, b);
    if a < 0 {
      NegativeDigits(-a, -b);
    } else {
      DigitsInjective(a, b);
    }
  }

  /** Equal renderings start with the same character, hence have the same sign. */
  lemma SameSign(a: int, b: int)
    requires IntToString(a) == IntToString(b)
    ensures a < 0 <==> b < 0
  {
    assert IntToString(a)[0] == IntToString(b)[0];
  }

  lemma NegativeDigits(m: nat, n: nat)
    requires "-" + Digits(m) == "-" + Digits(n)
    ensures m == n
  {
    SamePrefixSameRest("-", Digits(m), Digits(n));
    DigitsInjective(m, n);
  }

  lemma SamePrefixSameRest(p: string, x: string, y: string)
    requires p + x == p + y
    ensures x == y
  {
    assert x == (p + x)[|p|..];
    assert y == (p + y)[|p|..];
  }

  lemma DigitsInjective(m: nat, n: nat)
    requires Digits(m) == Digits(n)
    ensures m == n
  {
    DigitsRoundTrip(m);
    DigitsRoundTrip(n);
  }

  /** Frames saved at different sample counts get different file names. */
  lemma ScreenshotNameInjective(a: int, b: int)
    ensures ScreenshotName(a) == ScreenshotName(b) <==> a == b
  {
    if ScreenshotName(a) == ScreenshotName(b) {
      var x, y := IntToString(a), IntToString(b);
      assert |x| == |y|;
      assert x == ScreenshotName(a)[6..6 + |x|];
      assert y == ScreenshotName(b)[6..6 + |y|];
      IntToStringInjective(a, b);
    }
  }
}
