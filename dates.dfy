/**
 * Calendar dates as the dialogs hold them, and their `yyyy-MM-dd` text
 * (what `QDate.toString("yyyy-MM-dd")` gives for a date of years 1-9999).
 */
module Dates {
  import opened Strings

  datatype Date = Date(year: nat, month: nat, day: nat)

  predicate ValidDate(d: Date)
  {
    1 <= d.year <= 9999 && 1 <= d.month <= 12 && 1 <= d.day <= 31
  }

  /** `n` in decimal, with leading zeros up to `width` digits. */
  function Pad(n: nat, width: nat): (s: string)
    ensures AllDigits(s) && |s| >= width
  {
    var digits := NatToString(n);
    if |digits| >= width then digits else seq(width - |digits|, _ => '0') + digits
  }

  /** The ISO 8601 calendar date `yyyy-MM-dd`. */
  function Iso(d: Date): string
  {
    Pad(d.year, 4) + "-" + Pad(d.month, 2) + "-" + Pad(d.day, 2)
  }

  function Pow10(w: nat): nat
  {
    if w == 0 then 1 else 10 * Pow10(w - 1)
  }

  /** A number below 10^w has at most w digits. */
  lemma {:induction false} DigitsWithin(n: nat, w: nat)
    requires 0 < w && n < Pow10(w)
    ensures |NatToString(n)| <= w
  {
    if n >= 10 {
      DigitsWithin(n / 10, w - 1);
    }
  }

  /** A number of at least 10^w has more than w digits. */
  lemma {:induction false} DigitsAtLeast(n: nat, w: nat)
    requires n >= Pow10(w)
    ensures |NatToString(n)| > w
  {
    if w > 0 {
      DigitsAtLeast(n / 10, w - 1);
    }
  }

  /** Leading zeros do not change the value of a digit string. */
  lemma {:induction false} LeadingZeros(zeros: string, s: string)
    requires forall i :: 0 <= i < |zeros| ==> zeros[i] == '0'
    requires AllDigits(s)
    ensures AllDigits(zeros + s) && DigitsValue(zeros + s) == DigitsValue(s)
    decreases |zeros| + |s|
  {
    var t := zeros + s;
    if |s| == 0 {
      assert t == zeros;
      if |zeros| > 0 {
        LeadingZeros(zeros[..|zeros| - 1], []);
        assert zeros[..|zeros| - 1] + [] == zeros[..|zeros| - 1];
      }
    } else {
      assert t[..|t| - 1] == zeros + s[..|s| - 1];
      LeadingZeros(zeros, s[..|s| - 1]);
    }
  }

  /** Padding keeps the value. */
  lemma PadValue(n: nat, width: nat)
    ensures DigitsValue(Pad(n, width)) == n
  {
    var digits := NatToString(n);
    DigitsValueOfNat(n);
    if |digits| < width {
      LeadingZeros(seq(width - |digits|, _ => '0'), digits);
    }
  }

  /** A date of the model's range renders as exactly ten characters, its fields at fixed positions. */
  lemma IsoLayout(d: Date)
    requires ValidDate(d)
    ensures var s := Iso(d);
            && |s| == 10 && s[4] == '-' && s[7] == '-'
            && s[..4] == Pad(d.year, 4) && s[5..7] == Pad(d.month, 2) && s[8..] == Pad(d.day, 2)
  {
    DigitsWithin(d.year, 4);
    DigitsWithin(d.month, 2);
    DigitsWithin(d.day, 2);
  }

  /** Different valid dates have different texts. */
  lemma IsoInjective(d: Date, e: Date)
    requires ValidDate(d) && ValidDate(e) && Iso(d) == Iso(e)
    ensures d == e
  {
    IsoLayout(d);
    IsoLayout(e);
    PadValue(d.year, 4);
    PadValue(e.year, 4);
    PadValue(d.month, 2);
    PadValue(e.month, 2);
    PadValue(d.day, 2);
    PadValue(e.day, 2);
  }

  /** The first day of the ohsome history, 8 October 2007. */
  const HistoryStart := Date(2007, 10, 8)

  /** Only that date renders as "2007-10-08". */
  lemma HistoryStartText(d: Date)
    requires ValidDate(d)
    ensures Iso(d) == "2007-10-08" <==> d == HistoryStart
  {
    assert Iso(HistoryStart) == "2007-10-08";
    if Iso(d) == "2007-10-08" {
      IsoInjective(d, HistoryStart);
    }
  }
}
