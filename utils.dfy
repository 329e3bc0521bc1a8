/** The two text helpers of lib/utils.ts: the guard clauses of `formatDate` and
    the Spanish weekday names. */
module Utils {
  import opened Common
  import opened Text

  /** `formatDate(dateString)`. `spell(year, month, day)` stands for building
      the local date from the three parts and writing it out in Spanish
      (`toLocaleDateString("es-ES", ...)`). */
  function FormatDate(dateString: string, spell: (string, string, string) -> string): string
  {
    if dateString == "" then ""
    else
      var parts := Split(dateString, '-');
      if |parts| < 3 || parts[0] == "" || parts[1] == "" || parts[2] == "" then dateString
      else spell(parts[0], parts[1], parts[2])
  }

  /** The empty text stays empty, and a text without three non-empty parts
      before the dashes is returned as it is. */
  lemma FormatDateGuards(dateString: string, spell: (string, string, string) -> string)
    ensures FormatDate("", spell) == ""
    ensures var parts := Split(dateString, '-');
            (|parts| < 3 || parts[0] == "" || parts[1] == "" || parts[2] == "") ==> FormatDate(dateString, spell) == dateString
  {
  }

  /** A text without a dash is returned as it is. */
  lemma FewDashesUnchanged(dateString: string, spell: (string, string, string) -> string)
    requires '-' !in dateString
    ensures FormatDate(dateString, spell) == dateString
  {
    SplitJoin([dateString], '-');
  }

  /** A `YYYY-MM-DD` text is spelled out from exactly its year, month and day. */
  lemma FormatDateOfParts(year: string, month: string, day: string, spell: (string, string, string) -> string)
    requires year != "" && month != "" && day != ""
    requires '-' !in year && '-' !in month && '-' !in day
    ensures FormatDate(year + "-" + month + "-" + day, spell) == spell(year, month, day)
  {
    var parts := [year, month, day];
    assert Join([day], '-') == day;
    assert Join([month, day], '-') == month + "-" + day;
    assert Join(parts, '-') == year + "-" + (month + "-" + day);
    assert year + "-" + month + "-" + day == year + "-" + (month + "-" + day);
    SplitJoin(parts, '-');
  }

  const DayNames: seq<string> := ["Domingo", "Lunes", "Martes", "Miércoles", "Jueves", "Viernes", "Sábado"]

  /** `getSpanishDayName(date)` for a date whose `getDay()` is `weekday` (0 is Sunday). */
  function SpanishDayName(weekday: int): (name: string)
    requires 0 <= weekday < 7
    ensures name in DayNames
  {
    DayNames[weekday]
  }

  /** The weekday a Spanish day name stands for. */
  function WeekdayOf(name: string): Option<int>
  {
    if name == "Domingo" then Some(0)
    else if name == "Lunes" then Some(1)
    else if name == "Martes" then Some(2)
    else if name == "Miércoles" then Some(3)
    else if name == "Jueves" then Some(4)
    else if name == "Viernes" then Some(5)
    else if name == "Sábado" then Some(6)
    else None
  }

  /** Each weekday has its own name: the name gives the weekday back. */
  lemma DayNameRoundTrip(weekday: int)
    requires 0 <= weekday < 7
    ensures WeekdayOf(SpanishDayName(weekday)) == Some(weekday)
  {
  }
}
