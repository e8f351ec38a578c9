/**
 * `formatDuration`: a duration in minutes shown as "N min" below an hour and
 * as "Hh Mm" (or "Hh" on the hour) above.  A duration is modelled as
 * `Option<real>`, with `None` for a value that is not a number at all
 * (`undefined`, `null`, `NaN`), which the source treats like 0.
 */
module Formatters {
  import opened Wrappers
  import opened Text

  /** `Math.round`: the nearest integer, with halves rounded up. */
  function Round(x: real): (n: int)
    ensures x - 0.5 < n as real <= x + 0.5
  {
    (x + 0.5).Floor
  }

  /** Rounding commutes with shifting by a whole number. */
  lemma RoundShift(x: real, k: int)
    ensures Round(x + k as real) == Round(x) + k
  {
  }

  /** The two shapes a duration is shown in: minutes only, or hours and minutes. */
  datatype Shown = Minutes(n: int) | Hours(h: int, m: int)

  /** The number of minutes a shown duration stands for. */
  function Total(d: Shown): int {
    match d
    case Minutes(n) => n
    case Hours(h, m) => 60 * h + m
  }

  /** The text of a shown duration; "Hh" when the minutes part is 0. */
  function Render(d: Shown): string {
    match d
    case Minutes(n) => IntToString(n) + " min"
    case Hours(h, m) => if m > 0 then IntToString(h) + "h " + IntToString(m) + "m" else IntToString(h) + "h"
  }

  /**
   * The parts as the source computes them: from an hour on, the hours are the
   * floor of minutes/60 and the minutes part is the remainder rounded on its
   * own, which can round up to 60.
   */
  function PartsAsWritten(minutes: Option<real>): (d: Shown)
    ensures minutes.None? || minutes.value == 0.0 ==> d == Minutes(0)
    ensures minutes.Some? && minutes.value != 0.0 ==> Total(d) == Round(minutes.value)
    ensures d.Hours? ==> 60.0 * d.h as real <= minutes.value < 60.0 * d.h as real + 60.0 && 0 <= d.m <= 60
  {
    if minutes.None? || minutes.value == 0.0 then Minutes(0)
    else if minutes.value < 60.0 then Minutes(Round(minutes.value))
    else
      var h := (minutes.value / 60.0).Floor;
      var rest := minutes.value - 60.0 * h as real;
      RoundShift(rest, 60 * h);
      Hours(h, Round(rest))
  }

  /**
   * `formatDuration` as written: "0 min" for a falsy duration, rounded
   * minutes under an hour, and from an hour on the whole hours followed by
   * the remainder rounded on its own.
   */
  function FormatDurationAsWritten(minutes: Option<real>): (s: string)
    ensures minutes.None? || minutes.value == 0.0 ==> s == "0 min"
    ensures minutes.Some? && minutes.value != 0.0 && minutes.value < 60.0 ==>
      s == IntToString(Round(minutes.value)) + " min"
    ensures minutes.Some? && minutes.value >= 60.0 ==>
      var h := (minutes.value / 60.0).Floor;
      s == Render(Hours(h, Round(minutes.value - 60.0 * h as real)))
  {
    Render(PartsAsWritten(minutes))
  }

  /**
   * The source shows 119.5 minutes as "1h 60m": the remainder 59.5 rounds up
   * to a full hour that is not carried into the hours.
   */
  lemma SixtyMinutesShown()
    ensures PartsAsWritten(Some(119.5)) == Hours(1, 60)
    ensures FormatDurationAsWritten(Some(119.5)) == "1h 60m"
  {
    assert (119.5 / 60.0).Floor == 1;
    assert Round(59.5) == 60;
    assert IntToString(1) == "1";
    assert IntToString(60) == NatToString(6) + [DigitChar(0)];
  }

  /**
   * The parts as intended: from an hour on, the whole duration is rounded
   * first and then split, so the minutes part stays below 60.
   */
  function Parts(minutes: Option<real>): (d: Shown)
    ensures minutes.None? || minutes.value == 0.0 ==> d == Minutes(0)
    ensures minutes.Some? && minutes.value != 0.0 ==> Total(d) == Round(minutes.value)
    ensures d.Hours? ==> d.h >= 1 && 0 <= d.m < 60
  {
    if minutes.None? || minutes.value == 0.0 then Minutes(0)
    else if minutes.value < 60.0 then Minutes(Round(minutes.value))
    else
      var total := Round(minutes.value);
      Hours(total / 60, total % 60)
  }

  /**
   * `formatDuration` with the carry: from an hour on, the rounded total is
   * split into whole hours and the minutes left over.
   */
  function FormatDuration(minutes: Option<real>): (s: string)
    ensures minutes.None? || minutes.value == 0.0 ==> s == "0 min"
    ensures minutes.Some? && minutes.value != 0.0 && minutes.value < 60.0 ==>
      s == IntToString(Round(minutes.value)) + " min"
    ensures minutes.Some? && minutes.value >= 60.0 ==>
      s == Render(Hours(Round(minutes.value) / 60, Round(minutes.value) % 60))
  {
    Render(Parts(minutes))
  }

  /**
   * The correction changes nothing unless the source's minutes part rounds to
   * 60: then the source shows one hour less and 60 minutes, and the
   * correction shows the next whole hour.
   */
  lemma {:induction false} CorrectionOnlyCarries(minutes: Option<real>)
    ensures PartsAsWritten(minutes).Hours? && PartsAsWritten(minutes).m < 60 ==> Parts(minutes) == PartsAsWritten(minutes)
    ensures PartsAsWritten(minutes).Hours? && PartsAsWritten(minutes).m == 60 ==>
      Parts(minutes) == Hours(PartsAsWritten(minutes).h + 1, 0)
    ensures PartsAsWritten(minutes).Minutes? ==> Parts(minutes) == PartsAsWritten(minutes)
  {
    var d := PartsAsWritten(minutes);
    if d.Hours? {
      var total := Round(minutes.value);
      assert total == 60 * d.h + d.m;
      if d.m < 60 {
        assert total / 60 == d.h && total % 60 == d.m;
      } else {
        assert total == 60 * (d.h + 1);
        assert total / 60 == d.h + 1 && total % 60 == 0;
      }
    }
  }

  /** 119.5 minutes show as two hours. */
  lemma TwoHoursShown()
    ensures FormatDuration(Some(119.5)) == "2h"
  {
    assert Round(119.5) == 120;
    assert IntToString(2) == "2";
  }

  /** Anything that is not a number, and 0, shows as "0 min". */
  lemma FalsyIsZero(minutes: Option<real>)
    requires minutes.None? || minutes.value == 0.0
    ensures FormatDuration(minutes) == "0 min" == FormatDurationAsWritten(minutes)
  {
    assert IntToString(0) == "0";
  }
}
