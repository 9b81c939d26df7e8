/**
 * The `getCalendarEvents` procedure: fetch the primary and holiday listings,
 * normalise them, upsert them into `calendar_events` and translate failures.
 * The provider and the session are given as inputs: what each call returns.
 */
module Sync {
  import opened Wrappers
  import opened CalendarTypes
  import opened Holidays
  import opened Normalize
  import opened Errors
  import opened Store

  /** A local calendar date as given to the JavaScript `Date` constructor (months from 0). */
  datatype LocalDate = LocalDate(year: int, monthIndex: int, day: int)

  /** The parameters of one `events.list` request. */
  datatype ListRequest = ListRequest(
    calendarId: string,
    timeMin: LocalDate,
    timeMax: LocalDate,
    singleEvents: bool,
    orderBy: string,
    maxResults: Option<nat>)

  /** An `events.list` response body; `items` may be missing. */
  datatype ListResponse = ListResponse(items: Option<seq<RawEvent>>)

  type FetchResult = Result<ListResponse, Thrown>

  /** What the session and each provider call yield during one sync. */
  datatype Provider = Provider(
    session: Result<string, Thrown>,
    client: Result<(), Thrown>,
    calendarInfo: Result<string, Thrown>,
    colors: Result<(), Thrown>,
    list: ListRequest -> FetchResult)

  const PrimaryCalendar := "primary"
  const PrimaryPageSize: nat := 2500

  /** The listing request: two years around the current one, recurring events expanded. */
  function ListRequestFor(calendarId: string, year: int): (req: ListRequest)
    ensures req.calendarId == calendarId
    ensures req.timeMin == LocalDate(year - 1, 0, 1) && req.timeMax == LocalDate(year + 1, 11, 31)
    ensures req.maxResults.Some? <==> calendarId == PrimaryCalendar
  {
    ListRequest(
      calendarId := calendarId,
      timeMin := LocalDate(year - 1, 0, 1),
      timeMax := LocalDate(year + 1, 11, 31),
      singleEvents := true,
      orderBy := "startTime",
      maxResults := if calendarId == PrimaryCalendar then Some(PrimaryPageSize) else None)
  }

  /** `fetchEventsWithRetry`: a failing holiday listing reads as an empty one; others propagate. */
  function FetchEventsWithRetry(p: Provider, calendarId: string, fromHoliday: bool, year: int)
    : (r: FetchResult)
    ensures fromHoliday ==> r.Success?
    ensures p.list(ListRequestFor(calendarId, year)).Success? ==> r == p.list(ListRequestFor(calendarId, year))
    ensures !fromHoliday ==> r == p.list(ListRequestFor(calendarId, year))
  {
    var response := p.list(ListRequestFor(calendarId, year));
    if response.Failure? && fromHoliday then Success(ListResponse(Some([]))) else response
  }

  /** `response.data.items || []` */
  function Items(response: ListResponse): seq<RawEvent> {
    response.items.GetOr([])
  }

  /** The syncing user and the normalised events, as the loop receives them. */
  datatype Fetched = Fetched(userId: string, events: seq<CalendarEvent>)

  /** The holiday calendar's events, or none when its listing failed. */
  function HolidayItems(p: Provider, timeZone: string, year: int): seq<RawEvent> {
    var response := FetchEventsWithRetry(p, HolidayCalendarId(timeZone), true, year);
    Items(response.value)
  }

  /**
   * Everything `getCalendarEvents` does before its upsert loop. The first
   * failing step decides the error; on success the events are the primary
   * calendar's, then the holiday calendar's, each normalised in order.
   */
  function Prepare(p: Provider, year: int): (r: Result<Fetched, Thrown>)
    ensures r.Success? <==>
      && p.session.Success? && p.client.Success? && p.calendarInfo.Success? && p.colors.Success?
      && p.list(ListRequestFor(PrimaryCalendar, year)).Success?
    ensures p.session.Failure? ==> r == Failure(p.session.error)
    ensures p.session.Success? && p.client.Failure? ==> r == Failure(p.client.error)
    ensures p.session.Success? && p.client.Success? && p.calendarInfo.Failure? ==>
      r == Failure(p.calendarInfo.error)
    ensures p.session.Success? && p.client.Success? && p.calendarInfo.Success? && p.colors.Failure? ==>
      r == Failure(p.colors.error)
    ensures (p.session.Success? && p.client.Success? && p.calendarInfo.Success? && p.colors.Success? &&
             p.list(ListRequestFor(PrimaryCalendar, year)).Failure?) ==>
      r == Failure(p.list(ListRequestFor(PrimaryCalendar, year)).error)
    ensures r.Success? ==>
      && p.session.Success? && p.client.Success? && p.calendarInfo.Success? && p.colors.Success?
      && p.list(ListRequestFor(PrimaryCalendar, year)).Success?
      && r.value.userId == p.session.value
      && var primary := Items(p.list(ListRequestFor(PrimaryCalendar, year)).value);
         var holiday := HolidayItems(p, p.calendarInfo.value, year);
         r.value.events == NormalizeAll(Tag(primary, false)) + NormalizeAll(Tag(holiday, true))
         && |r.value.events| <= |primary| + |holiday|
  {
    if p.session.Failure? then Failure(p.session.error)
    else if p.client.Failure? then Failure(p.client.error)
    else if p.calendarInfo.Failure? then Failure(p.calendarInfo.error)
    else
      var holidayCalendarId := HolidayCalendarId(p.calendarInfo.value);
      if p.colors.Failure? then Failure(p.colors.error)
      else
        var response := FetchEventsWithRetry(p, PrimaryCalendar, false, year);
        if response.Failure? then Failure(response.error)
        else
          var holidayResponse := FetchEventsWithRetry(p, holidayCalendarId, true, year);
          var primary := Tag(Items(response.value), false);
          var holiday := Tag(Items(holidayResponse.value), true);
          NormalizeAllAppend(primary, holiday);
          Success(Fetched(p.session.value, NormalizeAll(primary + holiday)))
  }

  /**
   * `getCalendarEvents`: on success the table holds every normalised event,
   * upserted in order under the session's user, and the events are returned;
   * on failure the table is untouched and the translated message is reported.
   */
  method GetCalendarEvents(table: EventTable, p: Provider, year: int, now: Timestamp)
    returns (r: Result<seq<CalendarEvent>, string>)
    requires table.Valid()
    modifies table
    ensures table.Valid()
    ensures Prepare(p, year).Failure? ==>
      r == Failure(SyncErrorMessage(Prepare(p, year).error)) && table.rows == old(table.rows)
    ensures Prepare(p, year).Success? ==>
      var f := Prepare(p, year).value;
      r == Success(f.events) && table.rows == UpsertAll(old(table.rows), f.events, f.userId, now)
  {
    if p.session.Failure? {
      return Failure(SyncErrorMessage(p.session.error));
    }
    var userId := p.session.value;
    if p.client.Failure? {
      return Failure(SyncErrorMessage(p.client.error));
    }
    if p.calendarInfo.Failure? {
      return Failure(SyncErrorMessage(p.calendarInfo.error));
    }
    var holidayCalendarId := HolidayCalendarId(p.calendarInfo.value);
    if p.colors.Failure? {
      return Failure(SyncErrorMessage(p.colors.error));
    }
    var response := FetchEventsWithRetry(p, PrimaryCalendar, false, year);
    if response.Failure? {
      return Failure(SyncErrorMessage(response.error));
    }
    var holidayResponse := FetchEventsWithRetry(p, holidayCalendarId, true, year);
    var allEvents := Tag(Items(response.value), false) + Tag(Items(holidayResponse.value), true);
    var transformedEvents := NormalizeAll(allEvents);
    table.UpsertEvents(transformedEvents, userId, now);
    r := Success(transformedEvents);
  }

  // ---------------------------------------------------------------------------
  // Properties of the sync
  // ---------------------------------------------------------------------------

  /** Only the primary calendar is listed with the large page size. */
  lemma HolidayListingUnpaged(timeZone: string, year: int)
    ensures ListRequestFor(PrimaryCalendar, year).maxResults == Some(PrimaryPageSize)
    ensures ListRequestFor(HolidayCalendarId(timeZone), year).maxResults == None
  {
  }

  /**
   * A failing holiday listing does not fail the sync: the events are then
   * exactly the primary calendar's, normalised.
   */
  lemma HolidayFailureDegrades(p: Provider, year: int)
    requires p.session.Success? && p.client.Success? && p.calendarInfo.Success? && p.colors.Success?
    requires p.list(ListRequestFor(PrimaryCalendar, year)).Success?
    requires p.list(ListRequestFor(HolidayCalendarId(p.calendarInfo.value), year)).Failure?
    ensures Prepare(p, year) ==
      Success(Fetched(p.session.value,
        NormalizeAll(Tag(Items(p.list(ListRequestFor(PrimaryCalendar, year)).value), false))))
  {
    var primary := NormalizeAll(Tag(Items(p.list(ListRequestFor(PrimaryCalendar, year)).value), false));
    assert HolidayItems(p, p.calendarInfo.value, year) == [];
    assert NormalizeAll(Tag([], true)) == [];
    assert primary + [] == primary;
  }

  /** A failing primary listing fails the sync with that error, after the earlier steps succeed. */
  lemma PrimaryFailurePropagates(p: Provider, year: int)
    requires p.session.Success? && p.client.Success? && p.calendarInfo.Success? && p.colors.Success?
    requires p.list(ListRequestFor(PrimaryCalendar, year)).Failure?
    ensures Prepare(p, year) == Failure(p.list(ListRequestFor(PrimaryCalendar, year)).error)
  {
  }

  /** Every returned event came from the primary listing or from the holiday listing, in that order. */
  lemma EventsComeFromListings(p: Provider, year: int, c: CalendarEvent)
    requires Prepare(p, year).Success? && c in Prepare(p, year).value.events
    ensures var primary := Items(p.list(ListRequestFor(PrimaryCalendar, year)).value);
      var holiday := HolidayItems(p, p.calendarInfo.value, year);
      (exists e :: e in primary && NormalizeEvent(e, false) == Some(c)) ||
      (exists e :: e in holiday && NormalizeEvent(e, true) == Some(c))
  {
    var primary := Items(p.list(ListRequestFor(PrimaryCalendar, year)).value);
    var holiday := HolidayItems(p, p.calendarInfo.value, year);
    if c in NormalizeAll(Tag(primary, false)) {
      var i := NormalizeAllProvenance(Tag(primary, false), c);
      assert primary[i] in primary;
    } else {
      var i := NormalizeAllProvenance(Tag(holiday, true), c);
      assert holiday[i] in holiday;
    }
  }
}
