/** The colour resolver: provider colour ids to the application's five colours. */
module Colors {
  import opened Wrappers
  import opened CalendarTypes

  /** The fixed eleven-entry table from provider colour id to event colour. */
  const ColorTable: map<string, EventColor> := map[
    "1" := Blue,
    "2" := Emerald,
    "3" := Violet,
    "4" := Rose,
    "5" := Orange,
    "6" := Blue,
    "7" := Violet,
    "8" := Emerald,
    "9" := Orange,
    "10" := Rose,
    "11" := Blue]

  /**
   * A non-empty colour id is looked up in the table, falling back to blue;
   * without one, holiday events are rose and all others blue.
   */
  function ResolveColor(colorId: Option<string>, fromHoliday: bool): (c: EventColor)
    ensures Truthy(colorId) && colorId.value !in ColorTable ==> c == Blue
    ensures !Truthy(colorId) ==> (c == Rose <==> fromHoliday)
  {
    if Truthy(colorId) then
      if colorId.value in ColorTable then ColorTable[colorId.value] else Blue
    else if fromHoliday then Rose
    else Blue
  }

  /** The eleven documented ids resolve to their colours, whatever the event's source. */
  lemma DocumentedPalette(fromHoliday: bool)
    ensures ResolveColor(Some("1"), fromHoliday) == Blue
    ensures ResolveColor(Some("2"), fromHoliday) == Emerald
    ensures ResolveColor(Some("3"), fromHoliday) == Violet
    ensures ResolveColor(Some("4"), fromHoliday) == Rose
    ensures ResolveColor(Some("5"), fromHoliday) == Orange
    ensures ResolveColor(Some("6"), fromHoliday) == Blue
    ensures ResolveColor(Some("7"), fromHoliday) == Violet
    ensures ResolveColor(Some("8"), fromHoliday) == Emerald
    ensures ResolveColor(Some("9"), fromHoliday) == Orange
    ensures ResolveColor(Some("10"), fromHoliday) == Rose
    ensures ResolveColor(Some("11"), fromHoliday) == Blue
  {
  }

  /** A listed id resolves to exactly its table entry; the source flag plays no part. */
  lemma ListedIdIsExact(id: string, fromHoliday: bool)
    requires id in ColorTable
    ensures ResolveColor(Some(id), fromHoliday) == ColorTable[id]
  {
    assert id != "";
  }

  /** An absent or empty id resolves to rose exactly for holiday events, to blue otherwise. */
  lemma MissingIdBySource(colorId: Option<string>, fromHoliday: bool)
    requires colorId == None || colorId == Some("")
    ensures ResolveColor(colorId, fromHoliday) == (if fromHoliday then Rose else Blue)
  {
  }

  /** Rose comes only from ids "4" and "10", or from a holiday event without an id. */
  lemma RoseIff(colorId: Option<string>, fromHoliday: bool)
    ensures ResolveColor(colorId, fromHoliday) == Rose <==>
      (Truthy(colorId) && (colorId.value == "4" || colorId.value == "10")) ||
      (!Truthy(colorId) && fromHoliday)
  {
  }

  /** Emerald, violet and orange come only from their two listed ids each. */
  lemma OtherColorsIff(colorId: Option<string>, fromHoliday: bool)
    ensures ResolveColor(colorId, fromHoliday) == Emerald <==>
      colorId == Some("2") || colorId == Some("8")
    ensures ResolveColor(colorId, fromHoliday) == Violet <==>
      colorId == Some("3") || colorId == Some("7")
    ensures ResolveColor(colorId, fromHoliday) == Orange <==>
      colorId == Some("5") || colorId == Some("9")
  {
  }
}
