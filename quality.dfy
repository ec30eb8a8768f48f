/** The output quality factor. The code only ever holds 1, 0.1, or what
    parseFloat makes of a step-0.1 slider's value, so a level is an exact
    number of tenths, or NaN for a string parseFloat cannot read. */
module Quality {
  import opened Decimal

  datatype Level = Tenths(n: nat) | NaN

  /** The quality 1. */
  const High: Level := Tenths(10)
  /** The quality 0.1. */
  const Low: Level := Tenths(1)
  /** The component starts at quality 1. */
  const Initial: Level := High

  /** The toggle compares with the literal 1: 1 becomes 0.1, anything else
      (0.1, any slider value, NaN) becomes 1. */
  function Toggle(q: Level): (r: Level)
    ensures r == High || r == Low
    ensures r == Low <==> q == High
  {
    if q == High then Low else High
  }

  /** On the two levels the toggle produces, toggling twice changes nothing. */
  lemma ToggleInvolution(q: Level)
    requires q == High || q == Low
    ensures Toggle(Toggle(q)) == q
  {
  }

  /** How a number of tenths renders as a string (what the quality slider is
      given as its value): integer values without a fractional part, others
      with exactly one fractional digit. */
  function Text(q: Level): string {
    match q
    case NaN => "NaN"
    case Tenths(n) =>
      if n % 10 == 0 then NatToString(n / 10)
      else NatToString(n / 10) + "." + [DigitChar(n % 10)]
  }

  /** parseFloat on the strings a slider with step 0.1 reports: digits, or
      optional digits, a point and one digit. Any other string reads as NaN. */
  function Parse(s: string): Level {
    if |s| >= 1 && AllDigits(s) then
      Tenths(DigitsValue(s) * 10)
    else if |s| >= 2 && s[|s| - 2] == '.' && IsDigit(s[|s| - 1]) && AllDigits(s[..|s| - 2]) then
      Tenths(DigitsValue(s[..|s| - 2]) * 10 + DigitValue(s[|s| - 1]))
    else
      NaN
  }

  /** Parsing the rendering of any level gives that level back: a quality
      slider that reports the value it was given leaves the quality as it was. */
  lemma {:induction false} ParseText(q: Level)
    ensures Parse(Text(q)) == q
  {
    match q
    case NaN =>
      assert !IsDigit(Text(q)[0]);
      assert Text(q)[1] != '.';
    case Tenths(n) =>
      var whole := NatToString(n / 10);
      NatToStringRoundTrip(n / 10);
      if n % 10 == 0 {
        assert Text(q) == whole;
      } else {
        var s := whole + "." + [DigitChar(n % 10)];
        assert Text(q) == s;
        assert !IsDigit(s[|s| - 2]);
        assert s[..|s| - 2] == whole;
      }
  }

  /** The slider's two extremes and the default read back as expected. */
  lemma SliderEnds()
    ensures Parse("0.1") == Low && Parse("1") == High && Parse("1.0") == High
    ensures Parse("") == NaN
  {
    assert "0.1"[..1] == "0" && "0"[..0] == "";
    assert "1.0"[..1] == "1" && "1"[..0] == "";
    assert DigitsValue("1") == 1;
  }
}
