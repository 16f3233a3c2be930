/** The timer display of the screen-time page: the minutes/seconds split,
    the zero-padded seconds text and the colour palette per alert level. */
module TimerDisplay {

  datatype FormattedTime = FormattedTime(minutes: int, secs: int)

  /** JavaScript's `total % 60`: the remainder truncated toward zero, which
      takes the sign of `total` (Dafny's `%` never returns a negative value). */
  function JsRemainder60(total: int): (r: int)
    ensures -60 < r < 60
    ensures total >= 0 ==> r == total % 60
  {
    if total >= 0 then total % 60 else -((-total) % 60)
  }

  /** `getFormatTime`: `Math.floor(total / 60)` and `total % 60`. For a
      positive divisor Dafny's Euclidean `/` is the floor. */
  function FormatTime(total: int): (t: FormattedTime)
    ensures total >= 0 ==> 0 <= t.secs < 60 && t.minutes >= 0
    ensures total >= 0 ==> t.minutes * 60 + t.secs == total
    ensures total < 0 ==> -60 < t.secs <= 0 && t.minutes < 0
  {
    FormattedTime(total / 60, JsRemainder60(total))
  }

  /** Minutes and seconds determine the total they were split from. */
  lemma FormatTimeInjective(a: int, b: int)
    requires a >= 0 && b >= 0 && FormatTime(a) == FormatTime(b)
    ensures a == b
  {
  }

  /** For a negative total the split does not add back up: floor division
      and a truncated remainder disagree, e.g. -1 becomes -1 min -1 s. */
  lemma FormatTimeNegative()
    ensures FormatTime(-1) == FormattedTime(-1, -1)
    ensures FormatTime(-1).minutes * 60 + FormatTime(-1).secs != -1
  {
  }

  // ---------------------------------------------------------------------------
  // `String(secs).padStart(2, '0')`

  function DigitChar(d: int): char
    requires 0 <= d < 10
  {
    ('0' as int + d) as char
  }

  predicate IsDigit(c: char) {
    '0' <= c <= '9'
  }

  /** `String(n)` for a non-negative integer: decimal, no leading zeros. */
  function NatToString(n: nat): (s: string)
    ensures |s| >= 1
    ensures forall i :: 0 <= i < |s| ==> IsDigit(s[i])
    decreases n
  {
    if n < 10 then [DigitChar(n)] else NatToString(n / 10) + [DigitChar(n % 10)]
  }

  /** `String(i)` for any integer. */
  function IntToString(i: int): string {
    if i < 0 then "-" + NatToString(-i) else NatToString(i)
  }

  /** The value of a string of decimal digits; the inverse of `NatToString`. */
  function DecimalValue(s: string): nat
    requires forall i :: 0 <= i < |s| ==> IsDigit(s[i])
  {
    if s == [] then 0
    else
      assert IsDigit(s[|s| - 1]);
      DecimalValue(s[..|s| - 1]) * 10 + (s[|s| - 1] as int - '0' as int)
  }

  lemma {:induction false} NatToStringRoundTrip(n: nat)
    ensures DecimalValue(NatToString(n)) == n
    decreases n
  {
    var s := NatToString(n);
    if n >= 10 {
      NatToStringRoundTrip(n / 10);
      assert s[..|s| - 1] == NatToString(n / 10);
    }
  }

  /** `s.padStart(width, fill)`: `fill` repeated on the left up to `width`. */
  function PadStart(s: string, width: nat, fill: char): (r: string)
    ensures |r| == if |s| >= width then |s| else width
    ensures r[|r| - |s|..] == s
    ensures forall i :: 0 <= i < |r| - |s| ==> r[i] == fill
  {
    if |s| >= width then s else seq(width - |s|, _ => fill) + s
  }

  /** The seconds text the display renders. */
  function SecondsText(secs: int): (r: string)
    ensures |r| >= 2
  {
    PadStart(IntToString(secs), 2, '0')
  }

  /** For every second of a minute the text is exactly its two digits. */
  lemma SecondsTextTwoDigits(secs: int)
    requires 0 <= secs < 60
    ensures SecondsText(secs) == [DigitChar(secs / 10), DigitChar(secs % 10)]
  {
    if secs >= 10 {
      assert NatToString(secs) == NatToString(secs / 10) + [DigitChar(secs % 10)];
    }
  }

  /** The displayed seconds of any non-negative total read back as the
      total's remainder modulo 60. */
  lemma SecondsTextReadsBack(total: int)
    requires total >= 0
    ensures var text := SecondsText(FormatTime(total).secs);
      |text| == 2 && DecimalValue(text) == total % 60
  {
    var secs := FormatTime(total).secs;
    SecondsTextTwoDigits(secs);
    TwoDigitValue(secs / 10, secs % 10);
    var text := SecondsText(secs);
    assert text == [DigitChar(secs / 10), DigitChar(secs % 10)];
    assert DecimalValue(text) == (secs / 10) * 10 + secs % 10 == secs;
  }

  lemma TwoDigitValue(tens: int, units: int)
    requires 0 <= tens < 10 && 0 <= units < 10
    ensures DecimalValue([DigitChar(tens), DigitChar(units)]) == tens * 10 + units
  {
    var text := [DigitChar(tens), DigitChar(units)];
    var first := [DigitChar(tens)];
    assert text[..|text| - 1] == first;
    assert first[..|first| - 1] == [];
    assert DecimalValue(first) == tens;
    assert text[|text| - 1] as int - '0' as int == units;
  }

  // ---------------------------------------------------------------------------
  // `getColors`

  datatype Palette = Palette(background: string, border: string, text: string)

  const Pink: Palette := Palette("#FFE6E6", "#FF9EC4", "#FF6B9D")
  const Yellow: Palette := Palette("#FFF9E6", "#FFD83B", "#FFA500")
  const Blue: Palette := Palette("#FFFFFF", "#00A0E9", "#00A0E9")

  /** Level 2 is the alert palette, level 1 the warning palette, and every
      other value, out-of-range ones included, the normal one. */
  function Colors(level: int): (p: Palette)
    ensures p == Pink <==> level == 2
    ensures p == Yellow <==> level == 1
    ensures p == Blue <==> level != 1 && level != 2
  {
    match level
    case 2 => Pink
    case 1 => Yellow
    case _ => Blue
  }
}
