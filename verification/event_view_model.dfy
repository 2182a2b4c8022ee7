/** The event side of `EventViewModel`: occasions and their date components,
    the choice of view-model kind for an event, and the title, description
    and notification payload shown for it.

    The holiday catalogue (`holiday.nextOccurrenceIn(region:)`) is not part
    of this model; it is passed in as a function from holiday and region to
    date components.
 */
module EventViewModel {

  import opened Optional
  import Decimal

  datatype Person = Person(firstName: string)

  datatype Holiday = Holiday(id: string)

  /** The catalogue regions; the view model only ever asks for `.usa`. */
  datatype Region = Usa

  datatype Occasion =
    | HolidayOccasion(holiday: Holiday)
    | Birthday(month: int, day: int, year: Option<int>)
    | Anniversary(month: int, day: int, year: Option<int>)

  datatype Event = Event(person: Person, occasion: Occasion)

  /** Foundation's `DateComponents`, reduced to the three fields read here;
      each may be absent. */
  datatype DateComponents = DateComponents(year: Option<int>, month: Option<int>, day: Option<int>)

  type Catalogue = (Holiday, Region) -> DateComponents

  /** The three subclasses, by kind; a holiday view model keeps its holiday. */
  datatype ViewModel =
    | HolidayViewModel(event: Event, holiday: Holiday)
    | BirthdayViewModel(event: Event)
    | AnniversaryViewModel(event: Event)

  /** `EventViewModel.fromEvent`. */
  function FromEvent(e: Event): (vm: ViewModel)
    ensures vm.event == e
    ensures vm.HolidayViewModel? <==> e.occasion.HolidayOccasion?
    ensures vm.BirthdayViewModel? <==> e.occasion.Birthday?
    ensures vm.AnniversaryViewModel? <==> e.occasion.Anniversary?
    ensures vm.HolidayViewModel? ==> vm.holiday == e.occasion.holiday
  {
    match e.occasion
    case HolidayOccasion(h) => HolidayViewModel(e, h)
    case Birthday(_, _, _) => BirthdayViewModel(e)
    case Anniversary(_, _, _) => AnniversaryViewModel(e)
  }

  /** `date`: a birthday or anniversary gives its own fields, a holiday
      whatever the catalogue returns for the United States. */
  function Date(o: Occasion, catalogue: Catalogue): (c: DateComponents)
    ensures !o.HolidayOccasion? ==> c.month == Some(o.month) && c.day == Some(o.day) && c.year == o.year
    ensures o.HolidayOccasion? ==> c == catalogue(o.holiday, Usa)
  {
    match o
    case Birthday(m, d, y) => DateComponents(y, Some(m), Some(d))
    case Anniversary(m, d, y) => DateComponents(y, Some(m), Some(d))
    case HolidayOccasion(h) => catalogue(h, Usa)
  }

  /** `month`; `None` where the force-unwrap of an absent month in
      `EventViewModel` would abort, which only a holiday can cause. */
  function Month(o: Occasion, catalogue: Catalogue): (r: Option<int>)
    ensures !o.HolidayOccasion? ==> r == Some(o.month)
    ensures o.HolidayOccasion? ==> r == catalogue(o.holiday, Usa).month
    ensures r.None? <==> o.HolidayOccasion? && catalogue(o.holiday, Usa).month.None?
  {
    Date(o, catalogue).month
  }

  /** `day`; `None` where the force-unwrap of an absent day would abort. */
  function Day(o: Occasion, catalogue: Catalogue): (r: Option<int>)
    ensures !o.HolidayOccasion? ==> r == Some(o.day)
    ensures o.HolidayOccasion? ==> r == catalogue(o.holiday, Usa).day
    ensures r.None? <==> o.HolidayOccasion? && catalogue(o.holiday, Usa).day.None?
  {
    Date(o, catalogue).day
  }

  /** `year`, which stays optional. */
  function Year(o: Occasion, catalogue: Catalogue): (r: Option<int>)
    ensures !o.HolidayOccasion? ==> r == o.year
    ensures o.HolidayOccasion? ==> r == catalogue(o.holiday, Usa).year
  {
    Date(o, catalogue).year
  }

  const EventSuffix: string := "'s Event"

  /** `title`. */
  function Title(e: Event): (t: string)
    ensures |t| == |e.person.firstName| + |EventSuffix|
    ensures t[..|e.person.firstName|] == e.person.firstName
    ensures t[|e.person.firstName|..] == EventSuffix
  {
    e.person.firstName + EventSuffix
  }

  const AwaySuffix: string := " days away"

  /** `description`, with `days` the day distance to the next occurrence. */
  function Description(days: int): (s: string)
    ensures |s| > |AwaySuffix| && s[|s| - |AwaySuffix|..] == AwaySuffix
    ensures Decimal.ParseInt(s[..|s| - |AwaySuffix|]) == Some(days)
  {
    var s := Decimal.IntToString(days) + AwaySuffix;
    assert s[..|s| - |AwaySuffix|] == Decimal.IntToString(days);
    Decimal.IntRoundTrip(days);
    s
  }

  /** `NotificationSpec`. */
  datatype NotificationSpec = NotificationSpec(id: string, title: string, message: string, daysBefore: int)

  /** `notifications`: one reminder on the day itself, titled and worded like
      the event's title and description. */
  function Notifications(e: Event, days: int): (r: seq<NotificationSpec>)
    ensures |r| == 1
    ensures r[0].id == "default"
    ensures r[0].daysBefore == 0
    ensures r[0].title == Title(e) && r[0].message == Description(days)
  {
    [NotificationSpec("default", Title(e), Description(days), 0)]
  }

  /** Two events or day counts with different first names or day counts never
      share a notification. */
  lemma NotificationsInjective(e1: Event, e2: Event, d1: int, d2: int)
    ensures Notifications(e1, d1) == Notifications(e2, d2) <==>
              e1.person.firstName == e2.person.firstName && d1 == d2
  {
    if Notifications(e1, d1) == Notifications(e2, d2) {
      var t1 := Title(e1);
      assert t1[..|t1| - |EventSuffix|] == e1.person.firstName;
      assert Title(e2)[..|Title(e2)| - |EventSuffix|] == e2.person.firstName;
    }
  }
}
