/**
 * The `calendar_events` table and the per-event upsert the sync performs on it.
 * The table is a map from event id (its primary key) to row.
 */
module Store {
  import opened Wrappers
  import opened CalendarTypes

  /** A `calendar_events` row. */
  datatype Row = Row(
    id: string,
    summary: string,
    description: Option<string>,
    startTime: Timestamp,
    endTime: Timestamp,
    location: Option<string>,
    attendees: seq<Attendee>,
    status: string,
    eventCreatedAt: Timestamp,
    eventUpdatedAt: Timestamp,
    userId: string,
    createdAt: Timestamp,
    updatedAt: Timestamp)

  /** Every row is stored under its own id. */
  ghost predicate KeyedById(rows: map<string, Row>) {
    forall k :: k in rows ==> rows[k].id == k
  }

  /** A row's mirrored fields hold the event's values, stamped at `now`. */
  ghost predicate Mirrors(row: Row, e: CalendarEvent, now: Timestamp) {
    && row.summary == e.title
    && row.description == Some(OrElse(e.description, ""))
    && row.startTime == e.start
    && row.endTime == e.end
    && row.location == Some(OrElse(e.location, ""))
    && row.attendees == e.attendees
    && row.updatedAt == now
  }

  /** Two rows agree on every column the conflict update leaves alone. */
  ghost predicate SameOwnership(a: Row, b: Row) {
    a.id == b.id && a.userId == b.userId && a.createdAt == b.createdAt && a.status == b.status &&
    a.eventCreatedAt == b.eventCreatedAt && a.eventUpdatedAt == b.eventUpdatedAt
  }

  /** The row inserted for an event id seen for the first time. */
  function InsertValues(e: CalendarEvent, userId: string, now: Timestamp): (row: Row)
    ensures Mirrors(row, e, now)
    ensures row.id == e.id && row.userId == userId && row.status == "confirmed"
    ensures row.createdAt == now && row.eventCreatedAt == now && row.eventUpdatedAt == now
  {
    Row(
      id := e.id,
      summary := e.title,
      description := Some(OrElse(e.description, "")),
      startTime := e.start,
      endTime := e.end,
      location := Some(OrElse(e.location, "")),
      attendees := e.attendees,
      status := "confirmed",
      eventCreatedAt := now,
      eventUpdatedAt := now,
      userId := userId,
      createdAt := now,
      updatedAt := now)
  }

  /** On conflict only the mirrored fields and `updatedAt` are overwritten. */
  function UpdateValues(row: Row, e: CalendarEvent, now: Timestamp): (r: Row)
    ensures Mirrors(r, e, now) && SameOwnership(r, row)
  {
    row.(
      summary := e.title,
      description := Some(OrElse(e.description, "")),
      startTime := e.start,
      endTime := e.end,
      location := Some(OrElse(e.location, "")),
      attendees := e.attendees,
      updatedAt := now)
  }

  /** Insert-or-update of one event keyed by its bare id. */
  function UpsertRow(rows: map<string, Row>, e: CalendarEvent, userId: string, now: Timestamp)
    : (r: map<string, Row>)
    ensures r.Keys == rows.Keys + {e.id}
    ensures forall k :: k in rows && k != e.id ==> r[k] == rows[k]
    ensures e.id in rows ==> Mirrors(r[e.id], e, now) && SameOwnership(r[e.id], rows[e.id])
    ensures e.id !in rows ==>
      Mirrors(r[e.id], e, now) && r[e.id].id == e.id && r[e.id].userId == userId &&
      r[e.id].status == "confirmed" && r[e.id].createdAt == now && r[e.id].eventCreatedAt == now &&
      r[e.id].eventUpdatedAt == now
  {
    if e.id in rows then rows[e.id := UpdateValues(rows[e.id], e, now)]
    else rows[e.id := InsertValues(e, userId, now)]
  }

  /** The ids of a batch of events. */
  function Ids(events: seq<CalendarEvent>): set<string> {
    set i | 0 <= i < |events| :: events[i].id
  }

  /** The table after upserting every event of the batch, in order. */
  function UpsertAll(rows: map<string, Row>, events: seq<CalendarEvent>, userId: string, now: Timestamp)
    : (r: map<string, Row>)
    ensures r.Keys == rows.Keys + Ids(events)
    ensures forall k :: k in rows && k !in Ids(events) ==> r[k] == rows[k]
    decreases |events|
  {
    if events == [] then rows
    else
      var n := |events| - 1;
      assert Ids(events) == Ids(events[..n]) + {events[n].id} by {
        assert forall i :: 0 <= i < n ==> events[..n][i] == events[i];
      }
      UpsertRow(UpsertAll(rows, events[..n], userId, now), events[n], userId, now)
  }

  /** The position of the last event in the batch with id `k`. */
  ghost function LastPosition(events: seq<CalendarEvent>, k: string): (j: nat)
    requires k in Ids(events)
    ensures j < |events| && events[j].id == k
    ensures forall l :: j < l < |events| ==> events[l].id != k
    decreases |events|
  {
    var n := |events| - 1;
    if events[n].id == k then n
    else
      assert k in Ids(events[..n]) by {
        var i :| 0 <= i < |events| && events[i].id == k;
        assert events[..n][i] == events[i];
      }
      LastPosition(events[..n], k)
  }

  // ---------------------------------------------------------------------------
  // Properties of the upsert
  // ---------------------------------------------------------------------------

  /** A conflict update with a later event discards whatever an earlier one wrote. */
  lemma UpdateAbsorbs(row: Row, a: CalendarEvent, b: CalendarEvent, t: Timestamp, userId: string)
    ensures UpdateValues(UpdateValues(row, a, t), b, t) == UpdateValues(row, b, t)
    ensures a.id == b.id ==> UpdateValues(InsertValues(a, userId, t), b, t) == InsertValues(b, userId, t)
  {
  }

  /**
   * The last event with a given id decides that row: an existing row has its
   * mirrored fields overwritten from it, and a new row is the insert of it.
   */
  lemma {:induction false} UpsertAllLastWriter(
    rows: map<string, Row>, events: seq<CalendarEvent>, userId: string, now: Timestamp, j: nat)
    requires j < |events|
    requires forall l :: j < l < |events| ==> events[l].id != events[j].id
    ensures var k := events[j].id;
      k in UpsertAll(rows, events, userId, now) &&
      UpsertAll(rows, events, userId, now)[k] ==
        if k in rows then UpdateValues(rows[k], events[j], now)
        else InsertValues(events[j], userId, now)
    decreases |events|, 1
  {
    var n := |events| - 1;
    if j == n {
      LastWriterIsFinal(rows, events, userId, now);
    } else {
      var k := events[j].id;
      var prefix := events[..n];
      assert prefix[j] == events[j];
      assert forall l :: j < l < |prefix| ==> prefix[l].id != k by {
        forall l | j < l < |prefix| ensures prefix[l].id != k {
          assert prefix[l] == events[l];
        }
      }
      UpsertAllLastWriter(rows, prefix, userId, now, j);
      LaterEventLeavesRow(rows, events, userId, now, k);
    }
  }

  /** One step of the batch: the table after the last event is its upsert into the rest. */
  lemma UpsertAllUnfold(rows: map<string, Row>, events: seq<CalendarEvent>, userId: string, now: Timestamp)
    requires events != []
    ensures var n := |events| - 1;
      UpsertAll(rows, events, userId, now) ==
        UpsertRow(UpsertAll(rows, events[..n], userId, now), events[n], userId, now)
  {
  }

  /** A final event with another id leaves the row stored under `k` as it was. */
  lemma LaterEventLeavesRow(
    rows: map<string, Row>, events: seq<CalendarEvent>, userId: string, now: Timestamp, k: string)
    requires events != [] && events[|events| - 1].id != k
    requires k in UpsertAll(rows, events[..|events| - 1], userId, now)
    ensures k in UpsertAll(rows, events, userId, now)
    ensures UpsertAll(rows, events, userId, now)[k] ==
      UpsertAll(rows, events[..|events| - 1], userId, now)[k]
  {
    UpsertAllUnfold(rows, events, userId, now);
  }

  /** The last-writer rule when the writer is the final event of the batch. */
  lemma {:induction false} LastWriterIsFinal(
    rows: map<string, Row>, events: seq<CalendarEvent>, userId: string, now: Timestamp)
    requires events != []
    ensures var e := events[|events| - 1];
      e.id in UpsertAll(rows, events, userId, now) &&
      UpsertAll(rows, events, userId, now)[e.id] ==
        if e.id in rows then UpdateValues(rows[e.id], e, now)
        else InsertValues(e, userId, now)
    decreases |events|, 0
  {
    var n := |events| - 1;
    var e := events[n];
    var prefix := events[..n];
    var before := UpsertAll(rows, prefix, userId, now);
    UpsertAllUnfold(rows, events, userId, now);
    if e.id in Ids(prefix) {
      var i := LastPosition(prefix, e.id);
      UpsertAllLastWriter(rows, prefix, userId, now, i);
      UpdateAbsorbs(if e.id in rows then rows[e.id] else before[e.id], prefix[i], e, now, userId);
    }
  }

  /**
   * Rows that existed before keep their id, owner, creation stamps, status and
   * provider stamps, even when they belong to another user; only their
   * mirrored fields can change, and only when the batch names their id.
   */
  lemma ExistingRowsKeepOwnership(
    rows: map<string, Row>, events: seq<CalendarEvent>, userId: string, now: Timestamp, k: string)
    requires k in rows
    ensures var r := UpsertAll(rows, events, userId, now);
      k in r && SameOwnership(r[k], rows[k]) &&
      (k in Ids(events) ==> Mirrors(r[k], events[LastPosition(events, k)], now)) &&
      (k !in Ids(events) ==> r[k] == rows[k])
  {
    if k in Ids(events) {
      UpsertAllLastWriter(rows, events, userId, now, LastPosition(events, k));
    }
  }

  /**
   * Ids seen for the first time get a row owned by the syncing user, confirmed,
   * created and provider-stamped now, and mirroring the last event in the batch with that id.
   */
  lemma NewRowsOwnedBySyncingUser(
    rows: map<string, Row>, events: seq<CalendarEvent>, userId: string, now: Timestamp, k: string)
    requires k !in rows && k in Ids(events)
    ensures var r := UpsertAll(rows, events, userId, now);
      k in r && r[k].id == k && r[k].userId == userId && r[k].status == "confirmed" &&
      r[k].createdAt == now && r[k].eventCreatedAt == now && r[k].eventUpdatedAt == now &&
      Mirrors(r[k], events[LastPosition(events, k)], now)
  {
    UpsertAllLastWriter(rows, events, userId, now, LastPosition(events, k));
  }

  /** Every row stays stored under its own id. */
  lemma UpsertAllKeyedById(
    rows: map<string, Row>, events: seq<CalendarEvent>, userId: string, now: Timestamp)
    requires KeyedById(rows)
    ensures KeyedById(UpsertAll(rows, events, userId, now))
  {
    var r := UpsertAll(rows, events, userId, now);
    forall k | k in r ensures r[k].id == k {
      if k in rows {
        ExistingRowsKeepOwnership(rows, events, userId, now, k);
      } else {
        NewRowsOwnedBySyncingUser(rows, events, userId, now, k);
      }
    }
  }

  /**
   * Syncing the same batch twice leaves one row per id: the second pass adds
   * and removes nothing and changes only `updatedAt` of the batch's rows.
   */
  lemma SyncTwiceOnlyAdvancesUpdatedAt(
    rows: map<string, Row>, events: seq<CalendarEvent>, userId: string, first: Timestamp,
    second: Timestamp)
    ensures var once := UpsertAll(rows, events, userId, first);
      var twice := UpsertAll(once, events, userId, second);
      twice.Keys == once.Keys &&
      forall k :: k in once ==>
        twice[k] == if k in Ids(events) then once[k].(updatedAt := second) else once[k]
  {
    var once := UpsertAll(rows, events, userId, first);
    var twice := UpsertAll(once, events, userId, second);
    forall k | k in once && k in Ids(events)
      ensures twice[k] == once[k].(updatedAt := second)
    {
      var j := LastPosition(events, k);
      UpsertAllLastWriter(rows, events, userId, first, j);
      UpsertAllLastWriter(once, events, userId, second, j);
    }
  }

  /** The `calendar_events` table, updated in place by the sync. */
  class EventTable {
    var rows: map<string, Row>

    ghost predicate Valid()
      reads this
    {
      KeyedById(rows)
    }

    constructor (initial: map<string, Row>)
      requires KeyedById(initial)
      ensures Valid() && rows == initial
    {
      rows := initial;
    }

    /** `insert ... onConflictDoUpdate` for one event. */
    method Upsert(e: CalendarEvent, userId: string, now: Timestamp)
      requires Valid()
      modifies this
      ensures Valid()
      ensures rows == UpsertRow(old(rows), e, userId, now)
    {
      if e.id in rows {
        rows := rows[e.id := UpdateValues(rows[e.id], e, now)];
      } else {
        rows := rows[e.id := InsertValues(e, userId, now)];
      }
    }

    /** The sync's loop: upsert every normalised event, one row at a time. */
    method UpsertEvents(events: seq<CalendarEvent>, userId: string, now: Timestamp)
      requires Valid()
      modifies this
      ensures Valid()
      ensures rows == UpsertAll(old(rows), events, userId, now)
      ensures rows.Keys == old(rows).Keys + Ids(events)
    {
      for i := 0 to |events|
        invariant Valid()
        invariant rows == UpsertAll(old(rows), events[..i], userId, now)
      {
        assert events[..i + 1][..i] == events[..i];
        Upsert(events[i], userId, now);
      }
      assert events[..|events|] == events;
    }
  }
}
