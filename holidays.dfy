/** The holiday-calendar selector: a time zone name to a public holiday calendar. */
module Holidays {
  import opened Strings

  const IndianHolidays := "en.indian#holiday@group.v.calendar.google.com"
  const ChineseHolidays := "zh.china#holiday@group.v.calendar.google.com"
  const JapaneseHolidays := "ja.japanese#holiday@group.v.calendar.google.com"
  const SingaporeHolidays := "en.singapore#holiday@group.v.calendar.google.com"
  const UkHolidays := "en.uk#holiday@group.v.calendar.google.com"
  const EuropeanHolidays := "en.european#holiday@group.v.calendar.google.com"
  const AustralianHolidays := "en.australian#holiday@group.v.calendar.google.com"
  const UsaHolidays := "en.usa#holiday@group.v.calendar.google.com"

  /** An `Asia/` zone that names one of the Chinese cities the selector looks for. */
  predicate NamesChineseCity(timeZone: string) {
    Contains(timeZone, "Shanghai") || Contains(timeZone, "Beijing") || Contains(timeZone, "Hong_Kong")
  }

  /** First match wins: Asia, then Europe, then Australia and Auckland, else the USA. */
  function HolidayCalendarId(timeZone: string): (id: string)
    ensures id in {IndianHolidays, ChineseHolidays, JapaneseHolidays, SingaporeHolidays,
                   UkHolidays, EuropeanHolidays, AustralianHolidays, UsaHolidays}
  {
    if StartsWith(timeZone, "Asia/") && timeZone == "Asia/Kolkata" then IndianHolidays
    else if StartsWith(timeZone, "Asia/") && NamesChineseCity(timeZone) then ChineseHolidays
    else if StartsWith(timeZone, "Asia/") && timeZone == "Asia/Tokyo" then JapaneseHolidays
    else if StartsWith(timeZone, "Asia/") && timeZone == "Asia/Singapore" then SingaporeHolidays
    else if StartsWith(timeZone, "Europe/") then
      if timeZone == "Europe/London" then UkHolidays else EuropeanHolidays
    else if StartsWith(timeZone, "Australia/") || StartsWith(timeZone, "Pacific/Auckland") then
      AustralianHolidays
    else UsaHolidays
  }

  /** A zone lacking the letters `h`, `B` and `H` cannot name any of the three cities. */
  lemma NoChineseCityWithoutTheirLetters(timeZone: string)
    requires 'h' !in timeZone && 'B' !in timeZone && 'H' !in timeZone
    ensures !NamesChineseCity(timeZone)
  {
    MissingCharNotContained(timeZone, "Shanghai", 'h');
    MissingCharNotContained(timeZone, "Beijing", 'B');
    MissingCharNotContained(timeZone, "Hong_Kong", 'H');
  }

  /** `Asia/Kolkata` names no Chinese city, so its branch, tested first, is the only one it reaches. */
  lemma KolkataNamesNoChineseCity()
    ensures !NamesChineseCity("Asia/Kolkata")
  {
    NoChineseCityWithoutTheirLetters("Asia/Kolkata");
  }

  /** `Asia/Tokyo` names no Chinese city, so the Chinese branch before it does not shadow it. */
  lemma TokyoNamesNoChineseCity()
    ensures !NamesChineseCity("Asia/Tokyo")
  {
    NoChineseCityWithoutTheirLetters("Asia/Tokyo");
  }

  /** `Asia/Singapore` names no Chinese city, so the Chinese branch before it does not shadow it. */
  lemma SingaporeNamesNoChineseCity()
    ensures !NamesChineseCity("Asia/Singapore")
  {
    NoChineseCityWithoutTheirLetters("Asia/Singapore");
  }

  /** The region prefixes exclude one another. */
  lemma RegionsDisjoint(timeZone: string)
    ensures StartsWith(timeZone, "Asia/") ==>
      !StartsWith(timeZone, "Europe/") && !StartsWith(timeZone, "Australia/") &&
      !StartsWith(timeZone, "Pacific/Auckland")
    ensures StartsWith(timeZone, "Europe/") ==>
      !StartsWith(timeZone, "Australia/") && !StartsWith(timeZone, "Pacific/Auckland")
  {
    if StartsWith(timeZone, "Asia/") {
      assert timeZone[1] == 's';
      assert timeZone[0] == 'A';
    }
    if StartsWith(timeZone, "Europe/") {
      assert timeZone[0] == 'E';
    }
  }

  /** The Indian calendar is chosen for exactly `Asia/Kolkata`. */
  lemma IndianIff(timeZone: string)
    ensures HolidayCalendarId(timeZone) == IndianHolidays <==> timeZone == "Asia/Kolkata"
  {
  }

  /** The Chinese calendar is chosen for exactly the `Asia/` zones naming Shanghai, Beijing or Hong Kong. */
  lemma ChineseIff(timeZone: string)
    ensures HolidayCalendarId(timeZone) == ChineseHolidays <==>
      StartsWith(timeZone, "Asia/") && NamesChineseCity(timeZone)
  {
    if timeZone == "Asia/Kolkata" {
      KolkataNamesNoChineseCity();
    }
  }

  /** The Japanese calendar is chosen for exactly `Asia/Tokyo`. */
  lemma JapaneseIff(timeZone: string)
    ensures HolidayCalendarId(timeZone) == JapaneseHolidays <==> timeZone == "Asia/Tokyo"
  {
    if timeZone == "Asia/Tokyo" {
      TokyoNamesNoChineseCity();
    }
  }

  /** The Singaporean calendar is chosen for exactly `Asia/Singapore`. */
  lemma SingaporeIff(timeZone: string)
    ensures HolidayCalendarId(timeZone) == SingaporeHolidays <==> timeZone == "Asia/Singapore"
  {
    if timeZone == "Asia/Singapore" {
      SingaporeNamesNoChineseCity();
    }
  }

  /** The UK calendar is chosen for exactly `Europe/London`. */
  lemma UkIff(timeZone: string)
    ensures HolidayCalendarId(timeZone) == UkHolidays <==> timeZone == "Europe/London"
  {
    RegionsDisjoint(timeZone);
  }

  /** Every other `Europe/` zone, and nothing else, gets the European calendar. */
  lemma EuropeanIff(timeZone: string)
    ensures HolidayCalendarId(timeZone) == EuropeanHolidays <==>
      StartsWith(timeZone, "Europe/") && timeZone != "Europe/London"
  {
    RegionsDisjoint(timeZone);
  }

  /** `Australia/` zones and zones starting with `Pacific/Auckland` get the Australian calendar. */
  lemma AustralianIff(timeZone: string)
    ensures HolidayCalendarId(timeZone) == AustralianHolidays <==>
      StartsWith(timeZone, "Australia/") || StartsWith(timeZone, "Pacific/Auckland")
  {
    RegionsDisjoint(timeZone);
  }

  /**
   * The USA calendar is the default: chosen exactly when no rule above matches,
   * which includes every `Asia/` zone other than the four recognised ones.
   */
  lemma UsaIff(timeZone: string)
    ensures HolidayCalendarId(timeZone) == UsaHolidays <==>
      !StartsWith(timeZone, "Europe/") &&
      !StartsWith(timeZone, "Australia/") && !StartsWith(timeZone, "Pacific/Auckland") &&
      !(StartsWith(timeZone, "Asia/") &&
        (timeZone in {"Asia/Kolkata", "Asia/Tokyo", "Asia/Singapore"} || NamesChineseCity(timeZone)))
  {
    RegionsDisjoint(timeZone);
  }

  /** Worked example: Kolkata gets the Indian calendar. */
  lemma KolkataExample()
    ensures HolidayCalendarId("Asia/Kolkata") == IndianHolidays
  {
  }

  /** Worked example: a European zone other than London gets the European calendar. */
  lemma ParisExample()
    ensures HolidayCalendarId("Europe/Paris") == EuropeanHolidays
  {
    assert "Europe/Paris"[0] == 'E';
    assert "Europe/Paris"[..7] == "Europe/";
    assert "Europe/Paris"[7] == 'P';
  }

  /** Worked example: Shanghai is found inside the zone name and gets the Chinese calendar. */
  lemma ShanghaiExample()
    ensures HolidayCalendarId("Asia/Shanghai") == ChineseHolidays
  {
    assert "Asia/Shanghai"[5..13] == "Shanghai";
    assert OccursAt("Asia/Shanghai", "Shanghai", 5);
  }

  /** An `Asia/` zone the selector does not recognise falls through to the USA calendar. */
  lemma UnrecognisedAsianZoneExample()
    ensures HolidayCalendarId("Asia/Dubai") == UsaHolidays
  {
    NoChineseCityWithoutTheirLetters("Asia/Dubai");
    assert "Asia/Dubai"[5] == 'D';
    assert "Asia/Dubai"[1] == 's';
  }
}
