/** The countdown of `EventViewModel`: the soon flag, the rounding of days
    to weeks, and the first-match-wins choice of a display string from the
    day, week and month distances to the next occurrence.

    The distances themselves come from the platform calendar and are
    parameters here: `days` is `daysAway`, `months` is `monthsAway`.
 */
module Countdown {

  import Decimal
  import Optional

  /** `EventViewModel.soonDaysAway`: the soon threshold, which is also the
      last day count still shown as "N days". */
  const SoonDaysAway: int := 20

  /** `isSoon`. A soon event with a non-negative day count is exactly one
      the switch shows by days, whatever the week and month counts. */
  function IsSoon(days: int): (r: bool)
    ensures days < 0 ==> r
    ensures forall weeks, months :: 0 <= days ==> (r <==> Select(days, weeks, months).IsDayBased())
  {
    days <= SoonDaysAway
  }

  /** `weeksAway`: `days / 7` rounded to the nearest integer. A quotient by 7
      of an integer never ends in exactly one half, so the nearest integer is
      unique and the float rounding in the Swift code needs no tie rule. */
  function WeeksAway(days: int): (w: int)
    ensures 7 * w - 3 <= days <= 7 * w + 3
  {
    (days + 3) / 7
  }

  /** Any integer within half a week of `days / 7` is `WeeksAway(days)`. */
  lemma WeeksAwayIsNearest(days: int, w: int)
    requires 7 * w - 3 <= days <= 7 * w + 3
    ensures w == WeeksAway(days)
  {
    var v := WeeksAway(days);
    assert 7 * (w - v) <= 6 && 7 * (v - w) <= 6;
  }

  /** The arm of the switch in `countdown` that fires. */
  datatype Branch =
    | Today
    | Tomorrow
    | Days(days: int)
    | OneWeek
    | Weeks(weeks: int)
    | OneMonth
    | Months(months: int)
    | AYear
  {
    predicate IsDayBased() {
      Today? || Tomorrow? || Days?
    }
  }

  /** The switch on `(daysAway, weeksAway, monthsAway)`, top to bottom, with
      the three distances as independent inputs. */
  function Select(days: int, weeks: int, months: int): (b: Branch)
    ensures days == 0 ==> b == Today
    ensures days == 1 ==> b == Tomorrow
    ensures 2 <= days <= SoonDaysAway ==> b == Days(days)
    ensures b.Days? ==> b.days == days && 2 <= days <= SoonDaysAway
    ensures !(0 <= days <= SoonDaysAway) && weeks == 1 ==> b == OneWeek
    ensures !(0 <= days <= SoonDaysAway) && 2 <= weeks < 4 ==> b == Weeks(weeks)
    ensures b.Weeks? ==> b.weeks == weeks && 2 <= weeks < 4
    ensures b.Months? ==> b.months == months && months != 1 && months < 12
    ensures b.IsDayBased() <==> 0 <= days <= SoonDaysAway
    ensures !b.IsDayBased() && (weeks < 1 || weeks >= 4) ==>
              b == (if months == 1 then OneMonth else if months < 12 then Months(months) else AYear)
  {
    if days == 0 then Today
    else if days == 1 then Tomorrow
    else if 2 <= days <= SoonDaysAway then Days(days)
    else if weeks == 1 then OneWeek
    else if 2 <= weeks < 4 then Weeks(weeks)
    else if months == 1 then OneMonth
    else if months < 12 then Months(months)
    else AYear
  }

  /** The string each arm returns. A counted arm shows its unit after a
      number that reads back as the arm's count. */
  function Render(b: Branch): (s: string)
    ensures b.Days? ==>
              |s| > 5 && s[|s| - 5..] == " days" && Decimal.ParseInt(s[..|s| - 5]) == Optional.Some(b.days)
    ensures b.Weeks? ==>
              |s| > 6 && s[|s| - 6..] == " weeks" && Decimal.ParseInt(s[..|s| - 6]) == Optional.Some(b.weeks)
    ensures b.Months? ==>
              |s| > 7 && s[|s| - 7..] == " months" && Decimal.ParseInt(s[..|s| - 7]) == Optional.Some(b.months)
  {
    match b
    case Today => "today"
    case Tomorrow => "tomorrow"
    case Days(d) =>
      var s := Decimal.IntToString(d) + " days";
      assert s[..|s| - 5] == Decimal.IntToString(d);
      Decimal.IntRoundTrip(d);
      s
    case OneWeek => "1 week"
    case Weeks(w) =>
      var s := Decimal.IntToString(w) + " weeks";
      assert s[..|s| - 6] == Decimal.IntToString(w);
      Decimal.IntRoundTrip(w);
      s
    case OneMonth => "1 month"
    case Months(m) =>
      var s := Decimal.IntToString(m) + " months";
      assert s[..|s| - 7] == Decimal.IntToString(m);
      Decimal.IntRoundTrip(m);
      s
    case AYear => "a year"
  }

  /** The arm that fires once the week count is the rounding of the day
      count, as it always is in `countdown`. */
  function SelectFor(days: int, months: int): (b: Branch)
    ensures !b.OneWeek?
    ensures b.Weeks? <==> 21 <= days <= 24
    ensures b.Weeks? ==> b.weeks == 3
  {
    Select(days, WeeksAway(days), months)
  }

  /** `countdown`, with the week count the rounding of the day count: the
      text of the arm the range description predicts. */
  function CountdownText(days: int, months: int): (s: string)
    ensures s == Render(ExpectedBranch(days, months))
  {
    SelectForMatchesExpected(days, months);
    Render(SelectFor(days, months))
  }

  /** An independent statement of which arm fires, by ranges of `days`
      alone and then by `months`. */
  function ExpectedBranch(days: int, months: int): Branch
  {
    if days == 0 then Today
    else if days == 1 then Tomorrow
    else if 2 <= days <= 20 then Days(days)
    else if 21 <= days <= 24 then Weeks(3)
    else if months == 1 then OneMonth
    else if months < 12 then Months(months)
    else AYear
  }

  /** The switch, fed with the rounded week count, picks exactly the arm the
      range description predicts, for every pair of distances. */
  lemma SelectForMatchesExpected(days: int, months: int)
    ensures SelectFor(days, months) == ExpectedBranch(days, months)
  {
    if 21 <= days <= 24 {
      WeeksAwayIsNearest(days, 3);
    }
  }

  /** Whatever the week and month counts, the day-based arms win first. */
  lemma DayBranchesWin(days: int, weeks: int, months: int)
    ensures days == 0 ==> Render(Select(days, weeks, months)) == "today"
    ensures days == 1 ==> Render(Select(days, weeks, months)) == "tomorrow"
    ensures 2 <= days <= 20 ==>
              Render(Select(days, weeks, months)) == Decimal.IntToString(days) + " days"
  {
  }

  /** The rounded week count of 21 to 24 days is 3. */
  lemma ThreeWeeks(days: int, months: int)
    requires 21 <= days <= 24
    ensures CountdownText(days, months) == "3 weeks"
  {
    WeeksAwayIsNearest(days, 3);
  }

  /** Past the day and week arms only the month count matters; a month
      count of 0 is shown as "0 months". */
  lemma MonthBranches(days: int, months: int)
    requires days < 0 || days >= 25
    ensures months == 1 ==> CountdownText(days, months) == "1 month"
    ensures months != 1 && months < 12 ==>
              CountdownText(days, months) == Decimal.IntToString(months) + " months"
    ensures months >= 12 ==> CountdownText(days, months) == "a year"
  {
    SelectForMatchesExpected(days, months);
  }

  lemma ZeroMonthsReachable()
    ensures CountdownText(25, 0) == "0 months"
  {
    MonthBranches(25, 0);
  }

  /** One value per arm boundary: 20 days is the last "N days", 21 days is
      three weeks, and a next occurrence 364 days away that the calendar
      counts as 11 whole months shows "11 months", not "a year". */
  lemma CountdownExamples()
    ensures CountdownText(0, 0) == "today"
    ensures CountdownText(1, 0) == "tomorrow"
    ensures CountdownText(14, 0) == "14 days"
    ensures CountdownText(20, 0) == "20 days"
    ensures CountdownText(21, 0) == "3 weeks"
    ensures CountdownText(30, 1) == "1 month"
    ensures CountdownText(340, 11) == "11 months"
    ensures CountdownText(364, 11) == "11 months"
    ensures CountdownText(365, 12) == "a year"
  {
    ThreeWeeks(21, 0);
    MonthBranches(30, 1);
    MonthBranches(340, 11);
    MonthBranches(364, 11);
    MonthBranches(365, 12);
  }

  /** The last two characters tell the arms apart. */
  function Tail2(s: string): string
  {
    if |s| < 2 then s else s[|s| - 2..]
  }

  function ArmTag(b: Branch): string
  {
    match b
    case Today => "ay"
    case Tomorrow => "ow"
    case Days(_) => "ys"
    case OneWeek => "ek"
    case Weeks(_) => "ks"
    case OneMonth => "th"
    case Months(_) => "hs"
    case AYear => "ar"
  }

  lemma RenderTail(b: Branch)
    ensures Tail2(Render(b)) == ArmTag(b)
  {
    match b
    case Days(d) =>
      var s := Render(b);
      assert s[|s| - 2..] == " days"[3..];
    case Weeks(w) =>
      var s := Render(b);
      assert s[|s| - 2..] == " weeks"[4..];
    case Months(m) =>
      var s := Render(b);
      assert s[|s| - 2..] == " months"[5..];
    case _ =>
  }

  /** Equal tails mean the same arm, up to the count a counted arm carries. */
  lemma SameTagSameArm(a: Branch, b: Branch)
    requires ArmTag(a) == ArmTag(b)
    ensures (a.Days? && b.Days?) || (a.Weeks? && b.Weeks?) || (a.Months? && b.Months?) || a == b
  {
  }

  /** The number in front of a counted arm's unit fixes the count. */
  lemma SameTextSameCount(a: Branch, b: Branch)
    requires (a.Days? && b.Days?) || (a.Weeks? && b.Weeks?) || (a.Months? && b.Months?)
    requires Render(a) == Render(b)
    ensures a == b
  {
    var s := Render(a);
    if a.Days? {
      assert Decimal.ParseInt(s[..|s| - 5]) == Optional.Some(a.days) == Optional.Some(b.days);
    } else if a.Weeks? {
      assert Decimal.ParseInt(s[..|s| - 6]) == Optional.Some(a.weeks) == Optional.Some(b.weeks);
    } else {
      assert Decimal.ParseInt(s[..|s| - 7]) == Optional.Some(a.months) == Optional.Some(b.months);
    }
  }

  /** Different arms, or the same arm with different counts, never display
      the same string: the countdown text determines the arm. */
  lemma RenderInjective(a: Branch, b: Branch)
    ensures Render(a) == Render(b) <==> a == b
  {
    if Render(a) == Render(b) {
      RenderTail(a);
      RenderTail(b);
      SameTagSameArm(a, b);
      if a != b {
        SameTextSameCount(a, b);
      }
    }
  }

  /** For a non-negative day count, the event is soon exactly when the
      countdown is "today", "tomorrow" or "N days" with N the day count:
      the soon threshold and the last "N days" value are the same constant. */
  lemma IsSoonIffDayCountdown(days: int, months: int)
    requires days >= 0
    ensures IsSoon(days) <==>
              CountdownText(days, months) in {"today", "tomorrow", Decimal.IntToString(days) + " days"}
  {
    var b := SelectFor(days, months);
    if !IsSoon(days) {
      RenderInjective(b, Today);
      RenderInjective(b, Tomorrow);
      RenderInjective(b, Days(days));
    }
  }
}
