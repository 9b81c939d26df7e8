/**
 * The records exchanged between the calendar provider and the sync routine:
 * the provider's raw event shape and the application's canonical event.
 */
module CalendarTypes {
  import opened Wrappers

  /** Timestamps are opaque: a date string as the provider sent it, or a clock reading. */
  type Timestamp = string

  /** The application's five event colours. */
  datatype EventColor = Blue | Emerald | Violet | Rose | Orange

  /** A provider start or end: a timed instant and/or an all-day date. */
  datatype EventDateTime = EventDateTime(dateTime: Option<string>, date: Option<string>)

  /** An attendee as the provider lists it; every field may be missing. */
  datatype RawAttendee = RawAttendee(
    email: Option<string>,
    displayName: Option<string>,
    responseStatus: Option<string>,
    optional: Option<bool>,
    organizer: Option<bool>)

  /** An event as the provider lists it; every field may be missing. */
  datatype RawEvent = RawEvent(
    id: Option<string>,
    summary: Option<string>,
    description: Option<string>,
    location: Option<string>,
    start: Option<EventDateTime>,
    end: Option<EventDateTime>,
    attendees: Option<seq<RawAttendee>>,
    colorId: Option<string>)

  /** The application's attendee. */
  datatype Attendee = Attendee(
    email: string,
    displayName: Option<string>,
    photoUrl: Option<string>,
    responseStatus: string,
    optional: bool,
    organizer: bool)

  /** The application's canonical event. */
  datatype CalendarEvent = CalendarEvent(
    id: string,
    title: string,
    description: Option<string>,
    start: Timestamp,
    end: Timestamp,
    allDay: bool,
    location: Option<string>,
    attendees: seq<Attendee>,
    color: EventColor)

  /** JavaScript truthiness of an optional string: present and non-empty. */
  predicate Truthy(v: Option<string>) {
    v.Some? && v.value != ""
  }

  /** `v || fallback` for an optional string. */
  function OrElse(v: Option<string>, fallback: string): string {
    if Truthy(v) then v.value else fallback
  }

  /** `v || undefined`: an empty string becomes missing. */
  function OrMissing(v: Option<string>): Option<string> {
    if Truthy(v) then v else None
  }

  /** `b || false` for an optional flag. */
  function OrFalse(b: Option<bool>): bool {
    b == Some(true)
  }
}
