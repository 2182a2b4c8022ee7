# Confetti event countdown — a Dafny model

This project models the decision logic of `EventViewModel` in ConfettiKit,
the view model a reminder app uses to show a birthday, anniversary or
holiday:

- the countdown text, chosen by a first-match-wins switch over the day, week
  and month distances to the next occurrence ("today", "tomorrow", "N days",
  "1 week", "N weeks", "1 month", "N months", "a year");
- the soon flag (`isSoon`), which shares its threshold of 20 days with the
  last "N days" value;
- the rounding of days to weeks (`weeksAway`);
- the ordinal suffix of an integer (`Int.th`);
- the projections of an occasion onto month, day and year, the choice of
  view-model kind for an event (`fromEvent`), and the single default
  notification built from the event's title and description.

The calendar work of `EventViewModel` (finding the next occurrence and counting
days and months to it) is done by Foundation. Here the day distance and the
month distance are parameters. The holiday catalogue is a function parameter
from holiday and region to date components.

Modules:

- `Optional` (optional.dfy): the `Option` type used for Swift optionals.
- `Decimal` (decimal.dfy): how Swift's string interpolation writes an `Int`, with
  a strict parser that reads back exactly those texts: no leading zeros, no
  "-0". A text that reads back as a count is therefore the text Swift writes
  for it. It is used to show that different counts never give the same text.
- `Ordinal` (ordinal.dfy): `Int.suffixes` and `Int.th`.
- `Countdown` (countdown.dfy): `soonDaysAway`, `isSoon`, `weeksAway`, and `countdown`.
  `countdown` is split into `Select`, which picks the arm of the switch as a
  `Branch` value, and `Render`, which gives each arm's string.
- `EventViewModel` (event_view_model.dfy): occasions, `fromEvent`, `date`, `month`, `day`,
  `year`, `title`, `description`, `NotificationSpec` and `notifications`.

Some results follow from the fact that `weeksAway` always rounds `daysAway`:

- The "1 week" arm can never fire for any day count. A week count of 1 needs
  4 to 10 days, and the "N days" arm takes those first.
- The "N weeks" arm fires exactly for 21 to 24 days, and it always shows
  "3 weeks".
- "0 months" is a possible output. An example is 25 days with a month
  distance of 0.
- A next occurrence 364 days away, which the calendar counts as 11 whole
  months, shows "11 months", not "a year".

Two behaviours of the Swift code are worth stating plainly:

- The common English ordinal rule gives "th" to every number ending in 11,
  12 or 13. `Int.th` only treats 10 to 19 specially, so 111, 112 and 113 get
  "st", "nd" and "rd". `Ordinal.ThAgreesWithEnglish` states exactly where
  the two rules differ.
- `month` and `day` force-unwrap the date components. `Month` and `Day`
  return `None` where that unwrap would abort, and this can only happen for
  a holiday whose catalogue entry lacks the field.

## Model

| member | source | states |
|---|---|---|
| Decimal.IntRoundTrip | ConfettiKit/EventViewModel.swift:38 | an interpolated `Int` (as in `"\(daysAway) days away"`) reads back as the same integer, negative values included |
| Decimal.ParseIntExact | ConfettiKit/EventViewModel.swift:38 | a text reads back as n exactly when it is the interpolation of n, so every read-back contract below fixes the text itself |
| Decimal.IntToStringInjective | ConfettiKit/EventViewModel.swift:95 | two integers are interpolated to the same text exactly when they are equal |
| Ordinal.Th | ConfettiKit/EventViewModel.swift:143-165 | for every n >= 0 (a negative n indexes the table out of bounds), the suffix is one of "st", "nd", "rd", "th"; every n from 10 to 19 gets "th"; a last digit of 0 or 4 to 9 gives "th" |
| Ordinal.ThFromTwenty | ConfettiKit/EventViewModel.swift:162-164 | from 20 up the suffix is that of n % 10, which is the last-digit suffix |
| Ordinal.ThByLastDigit | ConfettiKit/EventViewModel.swift:157-165 | for all n >= 0 the suffix is "th" for 10 to 19 and the last digit's suffix otherwise |
| Ordinal.ThAgreesWithEnglish | ConfettiKit/EventViewModel.swift:143-165 | the table rule equals the English rule (11, 12, 13 at the end take "th") exactly when n is not 100 or more with its last two digits 11 to 13 |
| Ordinal.ThExamples | ConfettiKit/EventViewModel.swift:157-165 | 1 "st", 2 "nd", 3 "rd", 4 "th", 11 to 13 "th", 21 "st", 22 "nd", 23 "rd", 101 "st", and 111 "st" where English says "th" |
| Countdown.IsSoon | ConfettiKit/EventViewModel.swift:29-31 | a negative day count is always soon; for a non-negative day count, soon holds exactly when the switch picks a day-based arm, whatever the week and month counts |
| Countdown.WeeksAway | ConfettiKit/EventViewModel.swift:80-82 | the week count is within half a week of days / 7, that is 7w - 3 <= days <= 7w + 3 |
| Countdown.WeeksAwayIsNearest | ConfettiKit/EventViewModel.swift:80-82 | any integer within half a week of days / 7 is the week count, so the rounding is unique and needs no tie rule |
| Countdown.Select | ConfettiKit/EventViewModel.swift:88-106 | for independent day, week and month counts: 0 days gives "today", 1 day "tomorrow", and 2..20 days "N days" with the day count; an "N days" arm only for 2..20; outside 0..20 days a week count of 1 gives "1 week" and a week count of 2 or 3 gives "N weeks" with that count; an "N weeks" arm only for week counts 2..3; an "N months" arm only for counts other than 1 below 12; a day-based arm fires exactly when 0 <= days <= 20; otherwise, with no week arm, the month count alone decides |
| Countdown.Render | ConfettiKit/EventViewModel.swift:90-105 | each counted arm shows " days", " weeks" or " months" after a number that reads back as the arm's count, which by `Decimal.ParseIntExact` is the interpolated count |
| Countdown.SelectFor | ConfettiKit/EventViewModel.swift:80-106 | with the rounded week count, the "1 week" arm never fires and the "N weeks" arm fires exactly for 21 to 24 days, always with 3 weeks |
| Countdown.CountdownText | ConfettiKit/EventViewModel.swift:88-106 | the countdown text is the text of the arm the range description predicts: 0 "today", 1 "tomorrow", 2..20 "{days} days", 21..24 "3 weeks", then "1 month", "{m} months" below 12, or "a year" |
| Countdown.SelectForMatchesExpected | ConfettiKit/EventViewModel.swift:88-106 | for every day and month count, the switch picks the arm that a range description predicts: 0, 1, 2..20, 21..24, then by month count |
| Countdown.DayBranchesWin | ConfettiKit/EventViewModel.swift:88-95 | whatever the week and month counts, 0 days shows "today", 1 day "tomorrow", and 2 to 20 days "{days} days" |
| Countdown.ThreeWeeks | ConfettiKit/EventViewModel.swift:96-99 | 21 to 24 days show "3 weeks" for any month count |
| Countdown.MonthBranches | ConfettiKit/EventViewModel.swift:100-105 | below 0 or from 25 days the month count alone decides: 1 gives "1 month", other counts below 12 give "{m} months", 12 or more gives "a year" |
| Countdown.ZeroMonthsReachable | ConfettiKit/EventViewModel.swift:102-103 | 25 days with a month count of 0 shows "0 months" |
| Countdown.CountdownExamples | ConfettiKit/EventViewModel.swift:88-106 | one value at each arm boundary, including 20 days "20 days", 21 days "3 weeks" and 364 days at 11 months "11 months" |
| Countdown.RenderInjective | ConfettiKit/EventViewModel.swift:88-106 | two arms show the same text exactly when they are the same arm with the same count |
| Countdown.IsSoonIffDayCountdown | ConfettiKit/EventViewModel.swift:29-31 | for a non-negative day count, the event is soon exactly when the countdown is "today", "tomorrow" or "{days} days" |
| EventViewModel.FromEvent | ConfettiKit/EventViewModel.swift:12-21 | the view model keeps the event and its kind matches the occasion: holiday to holiday (keeping the holiday), birthday to birthday, anniversary to anniversary |
| EventViewModel.Date | ConfettiKit/EventViewModel.swift:119-127 | a birthday or anniversary passes its month, day and year through unchanged; a holiday gives the catalogue's answer for the United States |
| EventViewModel.Month | ConfettiKit/EventViewModel.swift:129-131 | a birthday or anniversary gives its own month, a holiday the catalogue's month; the month is missing, where the force-unwrap aborts, exactly for a holiday the catalogue gives no month for |
| EventViewModel.Day | ConfettiKit/EventViewModel.swift:133-135 | a birthday or anniversary gives its own day, a holiday the catalogue's day; the day is missing exactly for a holiday the catalogue gives no day for |
| EventViewModel.Year | ConfettiKit/EventViewModel.swift:137-139 | a birthday or anniversary gives its own optional year, a holiday the catalogue's optional year |
| EventViewModel.Title | ConfettiKit/EventViewModel.swift:33-35 | the title is the first name followed by "'s Event" |
| EventViewModel.Description | ConfettiKit/EventViewModel.swift:37-39 | the description ends in " days away", and what comes before reads back as the day count, which by `Decimal.ParseIntExact` is the interpolated day count |
| EventViewModel.Notifications | ConfettiKit/EventViewModel.swift:41-50 | exactly one notification, with id "default", no days before, the event's title and the description as message |
| EventViewModel.NotificationsInjective | ConfettiKit/EventViewModel.swift:41-50 | two events get the same notifications exactly when their first names and day counts agree |

## Left out

- Finding the next occurrence (`startOfToday`, `startOfYesterday`, `nextOccurrence`) is left out. It calls `Calendar.current` and reads the wall clock through `Date()`.
- Counting days and months (`daysAway`, `monthsAway`) is left out for the same reason. Both are parameters of the countdown functions. The force-unwraps on lines 65, 73, 77 and 85 depend on Foundation's behaviour and are not modelled.
- Countdown.WeeksAway: the float division and `round` are replaced by the exact integer rounding. The two agree for every day count a one-year search can produce, and up to 7·2^21 + 2 = 14,680,066 in magnitude. At 7·2^21 + 3 the `Float` quotient lands on a half and `round` gives one more week. IEEE float behaviour is not modelled.
- CountdownText: assumes one reading of the clock for the whole switch. The Swift getters each call `Date()` again: the match reads `daysAway`, `weeksAway` and `monthsAway` separately, and the text on lines 95 and 99 reads `daysAway` and `weeksAway` once more. Across midnight these reads can disagree, for example matching at 25 days with a week count taken from 24 days shows "3 weeks". The model feeds one day count and one month count to the match, the rounding and the displayed number.
- `monthName` and `shortMonthName` are left out. They read locale-dependent symbol tables from `DateFormatter`.
- `holiday.nextOccurrenceIn(region:)` is not part of this model. The holiday catalogue is a parameter, and `Region` has only the `.usa` case the view model asks for.
- `Person` and `Event` are not part of this model beyond the first name and the occasion they carry.
- The `HolidayViewModel`, `BirthdayViewModel` and `AnniversaryViewModel` subclasses are modelled as tags only.
- The year of a birthday or anniversary is modelled as optional, because `DateComponents(year:)` accepts an optional and the definition of the Swift `Occasion` enum is not shown.
- `person` is left out as a plain accessor of the event.
