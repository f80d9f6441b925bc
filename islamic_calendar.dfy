/**
 * The calendar card's approximate Hijri date and its lookup of notable
 * days. The conversion is the app's own display approximation (a 1.0307
 * scale factor and a fixed month shift), not an astronomical or tabular
 * Islamic calendar.
 */
module IslamicCalendar {
  import opened Types
  import opened JsString

  /** The twelve Islamic month names, Muharram first. */
  const MonthNames: seq<string> := [
    "Muharram", "Safar", "Rabi al-Awwal", "Rabi al-Thani",
    "Jumada al-Awwal", "Jumada al-Thani", "Rajab", "Sha'ban",
    "Ramadan", "Shawwal", "Dhu al-Qadah", "Dhu al-Hijjah"]

  /** The scale factor the conversion applies to years and days. */
  const Scale: real := 1.0307

  /** What `getIslamicDate` returns: day, month name, year and the combined display string. */
  datatype IslamicDate = IslamicDate(day: int, month: string, year: int, hijri: string)

  /** `Math.floor((year - 622) * 1.0307)`: from 622 on, the count runs at least as fast as the Gregorian one. */
  function IslamicYear(year: int): (y: int)
    ensures year >= 622 ==> year - 622 <= y
  {
    ((year - 622) as real * Scale).Floor
  }

  /** `Math.floor((month + 2) % 12) + 1` for a month 1..12 (the operand is positive, so JavaScript's `%` agrees). */
  function IslamicMonth(month: int): (m: int)
    requires 1 <= month <= 12
    ensures 1 <= m <= 12
  {
    (month + 2) % 12 + 1
  }

  /** `Math.floor(day * 1.0307) % 30 || 1`: the raw remainder, with 0 shown as 1. */
  function IslamicDay(day: int): (d: int)
    requires 1 <= day <= 31
    ensures 1 <= d <= 29
  {
    var raw := (day as real * Scale).Floor % 30;
    if raw == 0 then 1 else raw
  }

  /** `getIslamicDate` for a date whose month is 1..12 and day of month 1..31. */
  function GetIslamicDate(date: CalendarDate): (r: IslamicDate)
    requires 1 <= date.month <= 12 && 1 <= date.day <= 31
    ensures 1 <= r.day <= 29
    ensures r.month in MonthNames
    ensures r.hijri == IntToString(r.day) + " " + r.month + " " + IntToString(r.year) + " AH"
  {
    var year := IslamicYear(date.year);
    var month := IslamicMonth(date.month);
    var day := IslamicDay(date.day);
    IslamicDate(day, MonthNames[month - 1], year, IntToString(day) + " " + MonthNames[month - 1] + " " + IntToString(year) + " AH")
  }

  /** The display string starts with the day's digits and ends with the era. */
  lemma HijriShape(date: CalendarDate)
    requires 1 <= date.month <= 12 && 1 <= date.day <= 31
    ensures var r := GetIslamicDate(date);
      IsDigit(r.hijri[0]) && EndsWith(r.hijri, " AH")
  {
    var r := GetIslamicDate(date);
    var prefix := IntToString(r.day) + " " + r.month + " " + IntToString(r.year);
    assert r.hijri == prefix + " AH";
    assert r.hijri[|r.hijri| - 3..] == " AH";
    assert IntToString(r.day) == NatToString(r.day);
    assert r.hijri[0] == IntToString(r.day)[0];
  }

  /** The scaled day never crosses into the next integer for days 1..31, so the day is kept up to 29. */
  lemma IslamicDayKeepsDay(day: int)
    requires 1 <= day <= 31
    ensures IslamicDay(day) == if day <= 29 then day else 1
  {
    var x := day as real * Scale;
    assert day as real <= x < day as real + 1.0;
    assert x.Floor == day;
  }

  /** The month shift: October is Muharram, and it steps through the twelve names in order. */
  lemma MonthShift(month: int)
    requires 1 <= month <= 12
    ensures IslamicMonth(month) == if month >= 10 then month - 9 else month + 3
  {
  }

  lemma OctoberIsMuharram()
    ensures IslamicMonth(10) == 1 && MonthNames[IslamicMonth(10) - 1] == "Muharram"
  {
  }

  /** Different Gregorian months give different Islamic months: the map is a bijection on 1..12. */
  lemma MonthMapBijective(m1: int, m2: int)
    requires 1 <= m1 <= 12 && 1 <= m2 <= 12
    ensures IslamicMonth(m1) == IslamicMonth(m2) <==> m1 == m2
  {
    MonthShift(m1);
    MonthShift(m2);
  }

  /** A later Gregorian year never gives an earlier Islamic year. */
  lemma IslamicYearMonotone(y1: int, y2: int)
    requires y1 <= y2
    ensures IslamicYear(y1) <= IslamicYear(y2)
  {
    var a := (y1 - 622) as real * Scale;
    var b := (y2 - 622) as real * Scale;
    assert a <= b;
    assert a.Floor as real <= a < b.Floor as real + 1.0;
  }

  /** One of the notable days: its type and its message. */
  datatype ImportantDate = ImportantDate(kind: string, message: string)

  const RamadanEntry: ImportantDate := ImportantDate("Ramadan", "Blessed month of fasting")
  const HajjEntry: ImportantDate := ImportantDate("Hajj", "Hajj pilgrimage period")
  const NewYearEntry: ImportantDate := ImportantDate("Islamic New Year", "Islamic New Year")
  const MawlidEntry: ImportantDate := ImportantDate("Mawlid", "Birth of Prophet Muhammad \U{FDFA}")
  const MirajEntry: ImportantDate := ImportantDate("Laylat al-Miraj", "Night of Ascension")
  const BaraahEntry: ImportantDate := ImportantDate("Laylat al-Bara'ah", "Night of Forgiveness")
  const QadrEntry: ImportantDate := ImportantDate("Laylat al-Qadr", "Night of Power")
  const FitrEntry: ImportantDate := ImportantDate("Eid al-Fitr", "Festival of Breaking Fast")
  const AdhaEntry: ImportantDate := ImportantDate("Eid al-Adha", "Festival of Sacrifice")

  /** `getImportantDate`: the first test of the chain that the month name and day pass, or nothing. */
  function GetImportantDate(month: string, day: int): (r: Option<ImportantDate>)
    ensures r != Some(QadrEntry)
    ensures r != Some(AdhaEntry)
  {
    if month == "Ramadan" && 1 <= day <= 30 then Some(RamadanEntry)
    else if month == "Dhu al-Hijjah" && 8 <= day <= 13 then Some(HajjEntry)
    else if month == "Muharram" && day == 1 then Some(NewYearEntry)
    else if month == "Rabi al-Awwal" && day == 12 then Some(MawlidEntry)
    else if month == "Rajab" && day == 27 then Some(MirajEntry)
    else if month == "Sha'ban" && day == 15 then Some(BaraahEntry)
    else if month == "Ramadan" && day == 27 then Some(QadrEntry)
    else if month == "Shawwal" && day == 1 then Some(FitrEntry)
    else if month == "Dhu al-Hijjah" && day == 10 then Some(AdhaEntry)
    else None
  }

  /** Exactly which month names and days have an entry, and which entry. */
  lemma ImportantDateTable(month: string, day: int)
    ensures GetImportantDate(month, day) == Some(RamadanEntry) <==> month == "Ramadan" && 1 <= day <= 30
    ensures GetImportantDate(month, day) == Some(HajjEntry) <==> month == "Dhu al-Hijjah" && 8 <= day <= 13
    ensures GetImportantDate(month, day) == Some(NewYearEntry) <==> month == "Muharram" && day == 1
    ensures GetImportantDate(month, day) == Some(MawlidEntry) <==> month == "Rabi al-Awwal" && day == 12
    ensures GetImportantDate(month, day) == Some(MirajEntry) <==> month == "Rajab" && day == 27
    ensures GetImportantDate(month, day) == Some(BaraahEntry) <==> month == "Sha'ban" && day == 15
    ensures GetImportantDate(month, day) == Some(FitrEntry) <==> month == "Shawwal" && day == 1
    ensures GetImportantDate(month, day).None? <==>
      !(month == "Ramadan" && 1 <= day <= 30) && !(month == "Dhu al-Hijjah" && 8 <= day <= 13)
      && !(month == "Muharram" && day == 1) && !(month == "Rabi al-Awwal" && day == 12)
      && !(month == "Rajab" && day == 27) && !(month == "Sha'ban" && day == 15)
      && !(month == "Shawwal" && day == 1)
  {
  }

  /**
   * With the app's month shift every June date lands in Ramadan, and the
   * card then shows the Ramadan entry.
   */
  lemma JuneIsRamadan(date: CalendarDate)
    requires date.month == 6 && 1 <= date.day <= 31
    ensures var r := GetIslamicDate(date);
      r.month == "Ramadan" && GetImportantDate(r.month, r.day) == Some(RamadanEntry)
  {
  }
}
