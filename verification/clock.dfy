/** The "hours and minutes" text the overlays show for a stream's length:
    `{h}h{mm}` from one hour on, otherwise `{m}` followed by a unit suffix
    (" min" on the credits, "min" on the frames). `Read` parses such a text
    back, so the format can be shown to lose nothing. */
module Clock {
  import opened Wrappers
  import Text

  /** A unit suffix `Read` can tell apart from the two-digit minutes. */
  predicate Suffix(unit: string) {
    unit != [] && !Text.IsDigit(unit[|unit| - 1])
  }

  function HoursMinutes(total: nat, unit: string): (s: string)
    ensures total >= 60 ==> |s| >= 4 && s[|s| - 3] == 'h'
    ensures total < 60 ==> s == Text.NatToString(total) + unit
  {
    if total / 60 > 0 then
      Text.NatToString(total / 60) + "h" + Text.PadStart2(Text.NatToString(total % 60))
    else Text.NatToString(total) + unit
  }

  /** Parses `{m}{unit}` or `{h}h{mm}`. */
  function Read(s: string, unit: string): Option<nat> {
    if |s| > |unit| && s[|s| - |unit|..] == unit && Text.AllDigits(s[..|s| - |unit|]) then
      Some(Text.DigitsValue(s[..|s| - |unit|]))
    else if |s| >= 4 && s[|s| - 3] == 'h' && Text.AllDigits(s[..|s| - 3]) && Text.AllDigits(s[|s| - 2..]) then
      Some(60 * Text.DigitsValue(s[..|s| - 3]) + Text.DigitsValue(s[|s| - 2..]))
    else None
  }

  /** `padStart(2, "0")` on the digits of a number under 100 keeps its value. */
  lemma PadValue(m: nat)
    requires m < 100
    ensures var p := Text.PadStart2(Text.NatToString(m));
      |p| == 2 && Text.AllDigits(p) && Text.DigitsValue(p) == m
  {
    var d := Text.NatToString(m);
    Text.DigitsRoundTrip(m);
    if m < 10 {
      var p := Text.PadStart2(d);
      assert p == "0" + d;
      assert p[..1] == "0";
    } else {
      assert d == Text.NatToString(m / 10) + [Text.DigitChar(m % 10)];
      assert |Text.NatToString(m / 10)| == 1;
    }
  }

  /** Reading back the text gives the number of minutes again. */
  lemma RoundTrip(total: nat, unit: string)
    requires Suffix(unit)
    ensures Read(HoursMinutes(total, unit), unit) == Some(total)
  {
    var s := HoursMinutes(total, unit);
    Text.DigitsRoundTrip(total);
    if total >= 60 {
      var h, m := total / 60, total % 60;
      var hs, ms := Text.NatToString(h), Text.PadStart2(Text.NatToString(m));
      PadValue(m);
      Text.DigitsRoundTrip(h);
      assert s == hs + "h" + ms;
      assert s[..|s| - 3] == hs;
      assert s[|s| - 2..] == ms;
      assert Text.IsDigit(s[|s| - 1]);
    } else {
      assert s[..|s| - |unit|] == Text.NatToString(total);
    }
  }
}
