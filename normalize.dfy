/**
 * The event normaliser: provider events, each tagged with the calendar it came
 * from, become canonical events; records without a usable start or end are dropped.
 */
module Normalize {
  import opened Wrappers
  import opened CalendarTypes
  import opened Colors

  /** A provider event together with whether it was listed by the holiday calendar. */
  datatype Sourced = Sourced(event: RawEvent, fromHoliday: bool)

  /** `d?.dateTime` */
  function TimedValue(d: Option<EventDateTime>): Option<string> {
    if d.Some? then d.value.dateTime else None
  }

  /** `d?.date` */
  function DateValue(d: Option<EventDateTime>): Option<string> {
    if d.Some? then d.value.date else None
  }

  /** `d?.dateTime || d?.date`: the timed value when non-empty, otherwise the all-day date. */
  function Resolve(d: Option<EventDateTime>): (v: Option<string>)
    ensures Truthy(v) <==> Truthy(TimedValue(d)) || Truthy(DateValue(d))
  {
    if Truthy(TimedValue(d)) then TimedValue(d) else DateValue(d)
  }

  /** Provider attendee to application attendee, filling in the defaults. */
  function NormalizeAttendee(a: RawAttendee): Attendee {
    Attendee(
      email := OrElse(a.email, ""),
      displayName := OrMissing(a.displayName),
      photoUrl := None,
      responseStatus := OrElse(a.responseStatus, "needsAction"),
      optional := OrFalse(a.optional),
      organizer := OrFalse(a.organizer))
  }

  /** `attendees?.map(...) || []`: one attendee per listed one, in order. */
  function NormalizeAttendees(attendees: Option<seq<RawAttendee>>): (r: seq<Attendee>)
    ensures attendees.None? ==> r == []
    ensures attendees.Some? ==> |r| == |attendees.value|
    ensures attendees.Some? ==>
      forall i :: 0 <= i < |r| ==> r[i] == NormalizeAttendee(attendees.value[i])
  {
    if attendees.None? then []
    else seq(|attendees.value|, i requires 0 <= i < |attendees.value| =>
               NormalizeAttendee(attendees.value[i]))
  }

  /**
   * One provider event to a canonical event, or nothing when the event has
   * neither a timed nor an all-day start, or neither a timed nor an all-day end.
   */
  function NormalizeEvent(e: RawEvent, fromHoliday: bool): (r: Option<CalendarEvent>)
    ensures r.None? <==>
      (!Truthy(TimedValue(e.start)) && !Truthy(DateValue(e.start))) ||
      (!Truthy(TimedValue(e.end)) && !Truthy(DateValue(e.end)))
  {
    var start := Resolve(e.start);
    var end := Resolve(e.end);
    if !Truthy(start) || !Truthy(end) then None
    else Some(CalendarEvent(
      id := OrElse(e.id, ""),
      title := OrElse(e.summary, "Untitled Event"),
      description := OrMissing(e.description),
      start := start.value,
      end := end.value,
      allDay := !Truthy(TimedValue(e.start)),
      location := OrMissing(e.location),
      attendees := NormalizeAttendees(e.attendees),
      color := ResolveColor(e.colorId, fromHoliday)))
  }

  /** Whether the normaliser keeps an item. */
  predicate Kept(item: Sourced) {
    NormalizeEvent(item.event, item.fromHoliday).Some?
  }

  /** `items.map(normalise).filter(e => e !== null)` */
  function NormalizeAll(items: seq<Sourced>): (r: seq<CalendarEvent>)
    ensures |r| <= |items|
    decreases |items|
  {
    if items == [] then []
    else
      var last := items[|items| - 1];
      NormalizeAll(items[..|items| - 1]) +
        match NormalizeEvent(last.event, last.fromHoliday)
        case None => []
        case Some(c) => [c]
  }

  /** Tags every event of one listing with its source. */
  function Tag(events: seq<RawEvent>, fromHoliday: bool): (r: seq<Sourced>)
    ensures |r| == |events|
    ensures forall i :: 0 <= i < |r| ==> r[i] == Sourced(events[i], fromHoliday)
  {
    seq(|events|, i requires 0 <= i < |events| => Sourced(events[i], fromHoliday))
  }

  /** The positions of the kept items, in increasing order. */
  ghost function KeptPositions(items: seq<Sourced>): (ps: seq<nat>)
    ensures forall k :: 0 <= k < |ps| ==> ps[k] < |items| && Kept(items[ps[k]])
    ensures forall k, l :: 0 <= k < l < |ps| ==> ps[k] < ps[l]
    ensures forall i :: 0 <= i < |items| && Kept(items[i]) ==> i in ps
    decreases |items|
  {
    if items == [] then []
    else
      var n := |items| - 1;
      KeptPositions(items[..n]) + if Kept(items[n]) then [n] else []
  }

  // ---------------------------------------------------------------------------
  // Properties of the normaliser
  // ---------------------------------------------------------------------------

  /**
   * A kept event: the timed start and end are preferred over the all-day dates,
   * `allDay` says exactly that the start had no timed value, and the colour
   * comes from the resolver with the event's source.
   */
  lemma KeptEventTimes(e: RawEvent, fromHoliday: bool)
    requires NormalizeEvent(e, fromHoliday).Some?
    ensures var c := NormalizeEvent(e, fromHoliday).value;
      && c.start == (if Truthy(TimedValue(e.start)) then TimedValue(e.start).value
                     else DateValue(e.start).value)
      && c.end == (if Truthy(TimedValue(e.end)) then TimedValue(e.end).value
                   else DateValue(e.end).value)
      && (c.allDay <==> !Truthy(TimedValue(e.start)))
      && c.color == ResolveColor(e.colorId, fromHoliday)
  {
  }

  /** Non-empty provider fields carry over; missing or empty ones take the documented defaults. */
  lemma KeptEventDefaults(e: RawEvent, fromHoliday: bool)
    requires NormalizeEvent(e, fromHoliday).Some?
    ensures var c := NormalizeEvent(e, fromHoliday).value;
      && (c.title == "Untitled Event" <==> !Truthy(e.summary) || e.summary == Some("Untitled Event"))
      && (Truthy(e.summary) ==> c.title == e.summary.value)
      && (c.id == "" <==> !Truthy(e.id))
      && (Truthy(e.id) ==> c.id == e.id.value)
      && (c.description.None? <==> !Truthy(e.description))
      && (Truthy(e.description) ==> c.description == e.description)
      && (c.location.None? <==> !Truthy(e.location))
      && (Truthy(e.location) ==> c.location == e.location)
      && c.attendees == NormalizeAttendees(e.attendees)
      && (e.attendees.None? ==> c.attendees == [])
  {
  }

  /**
   * Attendee fields carry over when non-empty; otherwise an empty email, no
   * display name, a pending response, not optional and not organiser. No photo.
   */
  lemma AttendeeDefaults(a: RawAttendee)
    ensures var r := NormalizeAttendee(a);
      && r.photoUrl == None
      && (r.email == "" <==> !Truthy(a.email))
      && (Truthy(a.email) ==> r.email == a.email.value)
      && r.displayName == (if Truthy(a.displayName) then a.displayName else None)
      && (!Truthy(a.responseStatus) ==> r.responseStatus == "needsAction")
      && (Truthy(a.responseStatus) ==> r.responseStatus == a.responseStatus.value)
      && (r.optional <==> a.optional == Some(true))
      && (r.organizer <==> a.organizer == Some(true))
  {
  }

  /** Normalising a concatenation normalises each part and concatenates, in order. */
  lemma {:induction false} NormalizeAllAppend(a: seq<Sourced>, b: seq<Sourced>)
    ensures NormalizeAll(a + b) == NormalizeAll(a) + NormalizeAll(b)
    decreases |b|
  {
    if b == [] {
      assert a + b == a;
    } else {
      var n := |b| - 1;
      assert (a + b)[..|a + b| - 1] == a + b[..n];
      assert (a + b)[|a + b| - 1] == b[n];
      NormalizeAllAppend(a, b[..n]);
    }
  }

  /** `out[k]` is the normal form of the item at position `ps[k]`, for every `k`. */
  ghost predicate Selects(items: seq<Sourced>, ps: seq<nat>, out: seq<CalendarEvent>) {
    |out| == |ps| &&
    forall k :: 0 <= k < |ps| ==>
      ps[k] < |items| && NormalizeEvent(items[ps[k]].event, items[ps[k]].fromHoliday) == Some(out[k])
  }

  /**
   * The output is exactly the kept items, normalised, in input order: the k-th
   * output event is the normal form of the k-th kept item.
   */
  lemma {:induction false} NormalizeAllSelectsKept(items: seq<Sourced>)
    ensures Selects(items, KeptPositions(items), NormalizeAll(items))
    decreases |items|
  {
    if items != [] {
      var n := |items| - 1;
      var prefix := items[..n];
      var ps, out := KeptPositions(prefix), NormalizeAll(prefix);
      NormalizeAllSelectsKept(prefix);
      assert Selects(items, ps, out) by {
        forall k | 0 <= k < |ps| ensures items[ps[k]] == prefix[ps[k]] {
        }
      }
      var last := items[n];
      match NormalizeEvent(last.event, last.fromHoliday)
      case None =>
        assert KeptPositions(items) == ps;
        assert NormalizeAll(items) == out + [];
      case Some(c) =>
        assert KeptPositions(items) == ps + [n];
        assert NormalizeAll(items) == out + [c];
    }
  }

  /** Every output event is the normal form of some input item, found at position `i`. */
  lemma NormalizeAllProvenance(items: seq<Sourced>, c: CalendarEvent) returns (i: nat)
    requires c in NormalizeAll(items)
    ensures i < |items| && NormalizeEvent(items[i].event, items[i].fromHoliday) == Some(c)
  {
    NormalizeAllSelectsKept(items);
    assert Selects(items, KeptPositions(items), NormalizeAll(items));
    var k :| 0 <= k < |NormalizeAll(items)| && NormalizeAll(items)[k] == c;
    i := KeptPositions(items)[k];
  }

  /** A batch in which every item is kept comes through whole. */
  lemma {:induction false} AllKeptPreservesLength(items: seq<Sourced>)
    requires forall i :: 0 <= i < |items| ==> Kept(items[i])
    ensures |NormalizeAll(items)| == |items|
    decreases |items|
  {
    if items != [] {
      AllKeptPreservesLength(items[..|items| - 1]);
    }
  }
}
