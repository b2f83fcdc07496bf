/**
 * The call-history page's duration label: whole seconds shown as minutes,
 * a colon, and the remaining seconds padded to two digits.
 */
module CallHistory {
  import opened Text

  /** `formatDuration` on a whole, non-negative number of seconds:
      `Math.floor(seconds / 60)`, a colon, and `seconds % 60` padded with
      zeros to two characters. */
  function FormatDuration(seconds: nat): (r: string)
    ensures |r| >= 4 && IsDigit(r[0])
  {
    var m := NatToString(seconds / 60);
    var out := m + ":" + PadStart(NatToString(seconds % 60), 2, '0');
    assert out[0] == m[0];
    out
  }

  /** The label is the decimal minutes, a colon, and the two digits of the
      remaining seconds. */
  lemma FormatDurationShape(s: nat)
    ensures FormatDuration(s) == NatToString(s / 60) + ":" + [DigitChar(s % 60 / 10), DigitChar(s % 60 % 10)]
  {
    TwoDigits(s % 60);
  }

  /** Digits, a colon and two more digits: the colon is the only one, and
      the two sides are recovered by slicing around it. */
  lemma {:induction false} ColonSplit(m: string, sec: string)
    requires AllDigits(m) && |m| >= 1 && |sec| == 2 && AllDigits(sec)
    ensures var out := m + ":" + sec;
      && |out| == |m| + 3
      && out[..|out| - 3] == m && out[|out| - 2..] == sec
      && forall i :: 0 <= i < |out| ==> (out[i] == ':' <==> i == |out| - 3)
  {
    var out := m + ":" + sec;
    forall i | 0 <= i < |out|
      ensures out[i] == ':' <==> i == |out| - 3
    {
      if i < |m| {
        assert out[i] == m[i];
      } else if i > |m| {
        assert out[i] == sec[i - |m| - 1];
      }
    }
  }

  /** The label holds exactly one colon, and exactly two characters follow it. */
  lemma OneColon(s: nat)
    ensures var out := FormatDuration(s);
      |out| >= 4 && forall i :: 0 <= i < |out| ==> (out[i] == ':' <==> i == |out| - 3)
  {
    FormatDurationShape(s);
    ColonSplit(NatToString(s / 60), [DigitChar(s % 60 / 10), DigitChar(s % 60 % 10)]);
  }

  /** Reading the label back, minutes times sixty plus the seconds after the
      colon is the duration; the seconds part is below sixty. */
  lemma FormatDurationParse(s: nat)
    ensures var out := FormatDuration(s);
      && |out| >= 4
      && AllDigits(out[..|out| - 3]) && AllDigits(out[|out| - 2..])
      && ParseNat(out[|out| - 2..]) < 60
      && ParseNat(out[..|out| - 3]) * 60 + ParseNat(out[|out| - 2..]) == s
  {
    var q, r := s / 60, s % 60;
    assert q * 60 + r == s;
    var out := FormatDuration(s);
    assert out == NatToString(q) + ":" + [DigitChar(r / 10), DigitChar(r % 10)] by {
      FormatDurationShape(s);
    }
    LabelParse(q, r, out);
  }

  /** The label for q minutes and r < 60 seconds reads back as q and r. */
  lemma LabelParse(q: nat, r: nat, out: string)
    requires r < 60
    requires out == NatToString(q) + ":" + [DigitChar(r / 10), DigitChar(r % 10)]
    ensures |out| >= 4
    ensures AllDigits(out[..|out| - 3]) && AllDigits(out[|out| - 2..])
    ensures ParseNat(out[..|out| - 3]) == q && ParseNat(out[|out| - 2..]) == r
  {
    ColonSplit(NatToString(q), [DigitChar(r / 10), DigitChar(r % 10)]);
    ParseNatToString(q);
    TwoDigitsParse(r);
  }

  /** Two digits read back as the number they were written from. */
  lemma TwoDigitsParse(n: nat)
    requires n < 100
    ensures ParseNat([DigitChar(n / 10), DigitChar(n % 10)]) == n
  {
    var tens, units := n / 10, n % 10;
    var d := [DigitChar(tens), DigitChar(units)];
    assert d[..1] == [DigitChar(tens)];
    assert d[..1][..0] == [];
    assert DigitValue(DigitChar(tens)) == tens;
    assert DigitValue(DigitChar(units)) == units;
    assert ParseNat(d[..1]) == tens;
    assert ParseNat(d) == tens * 10 + units;
  }

  /** Under a minute the label starts with "0:". */
  lemma ShortDuration(s: nat)
    requires s < 60
    ensures FormatDuration(s)[..2] == "0:"
  {
    FormatDurationShape(s);
    assert s / 60 == 0;
    assert NatToString(0) == "0";
  }
}
