# Calendar sync: a Dafny model

This project models the calendar router of the One application
(`packages/trpc/routers/calendar.ts`). Its `getCalendarEvents` procedure does
the following:

- It reads the current user's session, builds a calendar client for that user, and reads the time zone of the user's primary calendar.
- It picks a public holiday calendar for that time zone.
- It lists the events of both calendars from 1 January of the previous year to 31 December of the next.
- It normalises the provider's events into the application's canonical shape. Events without a usable start or end are dropped, and colours come from a fixed palette.
- It upserts every event into the `calendar_events` table, keyed by event id.
- It translates any failure into a user-facing message.

The three mutations also call the provider: create and update first read the
primary calendar and then insert or update the event, and delete removes it.
The model covers what they add: how they report a failure, and the delete
acknowledgement.

Modules, one per file:

- `Wrappers`: `Option` and `Result`.
- `Strings`: `startsWith` and `includes`.
- `CalendarTypes`: the provider's raw event and attendee records, and the application's `CalendarEvent`. JavaScript truthiness (`v || fallback`) is written out as `Truthy`, `OrElse`, `OrMissing` and `OrFalse`.
- `Colors`: the colour table and the colour choice.
- `Holidays`: the holiday-calendar selector.
- `Normalize`: the per-event normaliser and the `map(...).filter(...)` pipeline over the tagged events.
- `Errors`: the translation of thrown values by the sync.
- `Mutations`: the mutations' error reporting.
- `Store`: the `calendar_events` rows, the insert-or-update of one event, and the class `EventTable` whose `rows` map the sync loop updates in place.
- `Sync`: the listing request, `fetchEventsWithRetry`, the steps before the loop (`Prepare`) and the whole procedure as the method `GetCalendarEvents`.

Several things are written differently from the code:

- The provider, the session and the calendar client are inputs. A `Provider` value holds what each call returns, and its `list` field maps a listing request to its result.
- Every `new Date()` is one `now` timestamp, and the current year is a parameter.
- Provider date strings are kept as opaque strings.
- The source asks `holidayEvents.includes(event)`, which compares objects by reference. The model tags each event with the listing it came from (`Sourced`) instead.

## Model

| member | source | states |
|---|---|---|
| Colors.ResolveColor | packages/trpc/routers/calendar.ts:116-120 | a non-empty colour id not in the table gives blue; without a non-empty id the colour is rose exactly for holiday events |
| Colors.DocumentedPalette | packages/trpc/routers/calendar.ts:13-25 | each of the eleven ids "1".."11" resolves to its listed colour whatever the event's source |
| Colors.ListedIdIsExact | packages/trpc/routers/calendar.ts:116-117 | a listed id resolves to exactly its table entry |
| Colors.MissingIdBySource | packages/trpc/routers/calendar.ts:116-120 | an absent or empty id gives rose for holiday events and blue otherwise |
| Colors.RoseIff | packages/trpc/routers/calendar.ts:13-25 | rose if and only if the id is "4" or "10", or there is no id and the event is a holiday |
| Colors.OtherColorsIff | packages/trpc/routers/calendar.ts:13-25 | emerald, violet and orange each come from exactly their two listed ids |
| Holidays.HolidayCalendarId | packages/trpc/routers/calendar.ts:40-67 | the result is one of the eight holiday calendar ids |
| Holidays.NoChineseCityWithoutTheirLetters | packages/trpc/routers/calendar.ts:45 | a zone lacking 'h', 'B' and 'H' cannot include Shanghai, Beijing or Hong_Kong |
| Holidays.IndianIff | packages/trpc/routers/calendar.ts:41-43 | the Indian calendar is chosen if and only if the zone is Asia/Kolkata |
| Holidays.ChineseIff | packages/trpc/routers/calendar.ts:41-47 | the Chinese calendar is chosen if and only if an Asia/ zone includes one of the three city names |
| Holidays.JapaneseIff | packages/trpc/routers/calendar.ts:48-50 | the Japanese calendar is chosen if and only if the zone is Asia/Tokyo |
| Holidays.SingaporeIff | packages/trpc/routers/calendar.ts:51-53 | the Singaporean calendar is chosen if and only if the zone is Asia/Singapore |
| Holidays.UkIff | packages/trpc/routers/calendar.ts:56-59 | the UK calendar is chosen if and only if the zone is Europe/London |
| Holidays.EuropeanIff | packages/trpc/routers/calendar.ts:56-61 | the European calendar is chosen if and only if the zone starts with Europe/ and is not London |
| Holidays.AustralianIff | packages/trpc/routers/calendar.ts:63-65 | the Australian calendar is chosen if and only if the zone starts with Australia/ or Pacific/Auckland |
| Holidays.UsaIff | packages/trpc/routers/calendar.ts:40-66 | the USA calendar is chosen if and only if no earlier rule matches, including every unrecognised Asia/ zone |
| Holidays.KolkataExample | packages/trpc/routers/calendar.ts:42-43 | Asia/Kolkata gets the Indian calendar |
| Holidays.ParisExample | packages/trpc/routers/calendar.ts:56-60 | Europe/Paris gets the European calendar |
| Holidays.ShanghaiExample | packages/trpc/routers/calendar.ts:45-46 | Asia/Shanghai gets the Chinese calendar |
| Holidays.UnrecognisedAsianZoneExample | packages/trpc/routers/calendar.ts:41-66 | Asia/Dubai falls through every rule to the USA calendar |
| Normalize.Resolve | packages/trpc/routers/calendar.ts:101-102 | a start or end value is usable if and only if its timed value or its date is non-empty |
| Normalize.NormalizeAttendees | packages/trpc/routers/calendar.ts:106-113 | missing attendees become the empty list; otherwise one normalised attendee per listed one, in order |
| Normalize.NormalizeEvent | packages/trpc/routers/calendar.ts:100-104 | an event is dropped if and only if its start or its end has neither a non-empty timed value nor a non-empty date |
| Normalize.NormalizeAll | packages/trpc/routers/calendar.ts:100-135 | the output is never longer than the input |
| Normalize.Tag | packages/trpc/routers/calendar.ts:115 | each event is paired, in order, with whether it came from the holiday listing |
| Normalize.KeptPositions | packages/trpc/routers/calendar.ts:135 | the positions of exactly the kept items, strictly increasing |
| Normalize.KeptEventTimes | packages/trpc/routers/calendar.ts:101-128 | a kept event's start and end prefer the timed value over the date; all-day if and only if the start has no timed value; the colour is chosen from the event's source |
| Normalize.KeptEventDefaults | packages/trpc/routers/calendar.ts:123-130 | a non-empty id, summary, description or location carries over as is; an empty title becomes "Untitled Event"; the id is empty exactly when missing; description and location are missing exactly when empty; the attendees are the normalised provider attendees, [] when there are none |
| Normalize.AttendeeDefaults | packages/trpc/routers/calendar.ts:106-113 | the normalised attendee (`Normalize.NormalizeAttendee`, which has no row of its own): no photo; a non-empty email or response carries over, else empty email and needsAction; the display name carries over when non-empty, else is missing; optional and organizer only when true |
| Normalize.NormalizeAllAppend | packages/trpc/routers/calendar.ts:98-100 | normalising primary events followed by holiday events is normalising each part, concatenated in order |
| Normalize.NormalizeAllSelectsKept | packages/trpc/routers/calendar.ts:100-135 | the k-th output event is the normal form of the k-th kept input item |
| Normalize.NormalizeAllProvenance | packages/trpc/routers/calendar.ts:100-135 | every output event is the normal form of some input item |
| Normalize.AllKeptPreservesLength | packages/trpc/routers/calendar.ts:135 | when every item is kept, nothing is lost |
| Errors.SyncErrorMessage | packages/trpc/routers/calendar.ts:173-186 | an expired grant gives the reconnect text; otherwise a missing scope gives the permissions text; otherwise the error's own message; a non-Error gives the fallback |
| Errors.NoExpiredGrantWithoutItsLetters | packages/trpc/routers/calendar.ts:176 | a message without '_' and 'T' carries neither expired-grant marker |
| Errors.NoMissingScopeWithoutItsLetter | packages/trpc/routers/calendar.ts:179 | a message lacking a letter of the missing-scope marker does not carry it |
| Errors.ReconnectIff | packages/trpc/routers/calendar.ts:176-177 | the reconnect text is reported if and only if an Error carries an expired-grant marker or already is that text |
| Errors.PermissionsIff | packages/trpc/routers/calendar.ts:176-180 | the permissions text is reported if and only if an Error carries the scope marker but no expiry marker, or already is that text |
| Errors.TranslationIsStable | packages/trpc/routers/calendar.ts:173-186 | translating an already translated message again changes nothing |
| Mutations.RunMutation | packages/trpc/routers/calendar.ts:219-229 | a mutation succeeds exactly when the provider call does, returning its reply unchanged; a thrown Error reports its own message; anything else reports the operation's fallback text |
| Mutations.DeleteEvent | packages/trpc/routers/calendar.ts:284-299 | a successful delete answers "Event deleted successfully"; a thrown Error reports its message; anything else reports "Failed to delete calendar event" |
| Mutations.FallbackTexts | packages/trpc/routers/calendar.ts:224-228 | the fallbacks are "Failed to create calendar event", "Failed to update calendar event" and "Failed to delete calendar event" (the texts of `Mutations.MutationFallback`, which has no row of its own; lines 268-272 and 294-298 hold the other two) |
| Mutations.MutationsNeverRelabel | packages/trpc/routers/calendar.ts:267-273 | a mutation reports an Error's own message unchanged, even one the sync would relabel |
| Mutations.UnmarkedMessagesPassThrough | packages/trpc/routers/calendar.ts:176-182 | an Error with neither marker is reported the same by the sync and by every mutation |
| Mutations.FallbacksDistinct | packages/trpc/routers/calendar.ts:293-299 | the fallback texts of the three mutations and of the sync are pairwise different |
| Store.InsertValues | packages/trpc/routers/calendar.ts:140-154 | the inserted row mirrors the event, carries its id, belongs to the syncing user, is confirmed, and has every stamp set to now |
| Store.UpdateValues | packages/trpc/routers/calendar.ts:155-166 | the conflict update mirrors the event and keeps id, owner, status and the creation and provider stamps |
| Store.UpsertRow | packages/trpc/routers/calendar.ts:138-166 | a new id gets a confirmed row with that id, owned by the user, created and provider-stamped now; an existing row has only its mirrored fields and updatedAt replaced; other rows are unchanged |
| Store.UpsertAll | packages/trpc/routers/calendar.ts:137-167 | the table's ids afterwards are the old ids plus the batch's; rows the batch does not name are unchanged |
| Store.UpdateAbsorbs | packages/trpc/routers/calendar.ts:155-166 | a second conflict update with the same stamp overrides the first |
| Store.UpsertAllLastWriter | packages/trpc/routers/calendar.ts:137-167 | the last event with an id decides its row: the update of the old row, or the insert of that event |
| Store.LastWriterIsFinal | packages/trpc/routers/calendar.ts:137-167 | the batch's final event decides the row under its id |
| Store.ExistingRowsKeepOwnership | packages/trpc/routers/calendar.ts:155-166 | existing rows keep id, owner, creation stamps and status, even rows of another user; they mirror the last event with their id |
| Store.NewRowsOwnedBySyncingUser | packages/trpc/routers/calendar.ts:138-154 | a new id gets a confirmed row of the syncing user, created and provider-stamped now, mirroring the last event with that id |
| Store.UpsertAllKeyedById | packages/db/schema.ts:57-58 | every row stays stored under its own primary key |
| Store.SyncTwiceOnlyAdvancesUpdatedAt | packages/trpc/routers/calendar.ts:137-167 | syncing the same batch twice adds no row and changes only updatedAt of the batch's rows |
| Store.EventTable.Upsert | packages/trpc/routers/calendar.ts:138-166 | the table after one insert-on-conflict-update is the upsert of the event |
| Store.EventTable.UpsertEvents | packages/trpc/routers/calendar.ts:137-167 | after the loop the table is the in-order upsert of every event, keyed by id |
| Sync.ListRequestFor | packages/trpc/routers/calendar.ts:76-83 | the window runs from 1 January of the previous year to 31 December of the next; a page size is sent if and only if the calendar is primary |
| Sync.FetchEventsWithRetry | packages/trpc/routers/calendar.ts:74-91 | a holiday listing never fails; a primary listing's outcome is the provider's, unchanged |
| Sync.Prepare | packages/trpc/routers/calendar.ts:28-135 | succeeds if and only if the session, client, calendar lookup, colours and primary listing all succeed; otherwise the first failing step's error is the result; the events are the primary events normalised, then the holiday events normalised (`Sync.Items`, which reads missing items as none, has no row of its own) |
| Sync.GetCalendarEvents | packages/trpc/routers/calendar.ts:28-186 | on success the events are returned and upserted in order under the session's user; on failure the table is untouched and the translated message is reported |
| Sync.HolidayListingUnpaged | packages/trpc/routers/calendar.ts:82 | only the primary listing asks for 2500 results |
| Sync.HolidayFailureDegrades | packages/trpc/routers/calendar.ts:84-98 | a failing holiday listing still syncs, with exactly the primary events |
| Sync.PrimaryFailurePropagates | packages/trpc/routers/calendar.ts:84-93 | a failing primary listing fails the sync with its own error |
| Sync.EventsComeFromListings | packages/trpc/routers/calendar.ts:96-135 | every synced event is the normal form of an event from the primary or the holiday listing |

## Left out

- Session lookup, client construction and calls into the Google client: their results are inputs. Only whether each call fails, and what it returns, is modelled.
- The `colors.get` call can fail and so is a step. Its answer (`eventColors`) is never used in the source, so it is not modelled.
- `calendarInfo.data.timeZone` may be undefined, and the `startsWith` call on it would then throw. The model assumes the time zone is a string.
- Database failures during the upsert loop are not modelled. In the source they abort the loop and leave the earlier rows written, and the sync's catch then reports them. The table's foreign key to `user` is not modelled either.
- `Date` construction is not modelled. The parsing of provider dates, `toISOString` and the clock are opaque strings. One `now` stands for every `new Date()` of an upsert, and the year is a parameter.
- `colorMap[event.colorId]` would also find keys inherited from `Object.prototype`, such as "toString". The model's table holds only the eleven listed ids.
- The request bodies of the create and update mutations are not modelled; they are passed to the provider as given. `RunMutation` takes the outcome of the whole mutation as its input.
- Console logging and the `status: 200` fields of the replies are not modelled.
- `async`/`await`: the steps run one after another, as the awaits order them, and no concurrency is modelled.
- Mutations.MutationErrorMessage: has no contract of its own; `Mutations.RunMutation` and `Mutations.DeleteEvent` state both of its cases in theirs.
