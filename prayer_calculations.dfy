/**
 * The prayer-time helpers: the civil Julian Day Number, the low-precision
 * solar position, the hour-angle based twilight times, the "HH:MM"
 * formatter, the next-prayer search and the Qibla bearing.
 *
 * JavaScript's `Math.sin`, `Math.cos`, ... are not modelled numerically:
 * they are the fields of a `Trig` value passed to every function that needs
 * them, so each statement below holds whatever those functions compute,
 * given at most the range facts `AcosInRange` and `Atan2InRange`.
 */
module PrayerCalculations {
  import opened Types
  import opened JsString

  /** `Math.PI` */
  const PI: real := 3.141592653589793

  /** The transcendental functions of `Math`, in radians. `atan2` takes (y, x). */
  datatype Trig = Trig(
    sin: real -> real,
    cos: real -> real,
    tan: real -> real,
    asin: real -> real,
    acos: real -> real,
    atan: real -> real,
    atan2: (real, real) -> real)

  /** The one fact about `Math.acos` the model relies on: its value lies in [0, PI]. */
  ghost predicate AcosInRange(t: Trig) {
    forall x :: 0.0 <= t.acos(x) <= PI
  }

  /** `Math.atan2` lies in [-PI, PI]. */
  ghost predicate Atan2InRange(t: Trig) {
    forall y, x :: -PI <= t.atan2(y, x) <= PI
  }

  /** `deg2rad`: a half turn of 180 degrees is PI radians. */
  function Deg2Rad(deg: real): (r: real)
    ensures deg == 180.0 ==> r == PI
    ensures r < 0.0 <==> deg < 0.0
  {
    deg * PI / 180.0
  }

  /** `rad2deg`: PI radians is a half turn of 180 degrees. */
  function Rad2Deg(rad: real): (r: real)
    ensures rad == PI ==> r == 180.0
    ensures r < 0.0 <==> rad < 0.0
  {
    rad * 180.0 / PI
  }

  /** The two conversions undo each other. */
  lemma AngleConversionsInverse(deg: real, rad: real)
    ensures Rad2Deg(Deg2Rad(deg)) == deg
    ensures Deg2Rad(Rad2Deg(rad)) == rad
  {
  }

  /**
   * A quotient whose divisor can be zero at the poles. JavaScript then yields
   * an infinity or NaN; the model has no such values and yields 0.
   */
  function Quot(a: real, b: real): real {
    if b == 0.0 then 0.0 else a / b
  }

  // ---------------------------------------------------------------------
  // The calculation-method table

  /** Fajr and Isha depression angles in degrees (Makkah's Isha entry is a minute count). */
  datatype MethodParams = MethodParams(fajr: real, isha: real)

  function CalculationParams(m: CalculationMethod): (p: MethodParams)
    ensures p.fajr > 0.0 && p.isha > 0.0
    ensures m != Makkah ==> p.isha < 90.0
  {
    match m
    case MWL => MethodParams(18.0, 17.0)
    case ISNA => MethodParams(15.0, 15.0)
    case Egypt => MethodParams(19.5, 17.5)
    case Makkah => MethodParams(18.5, 90.0)
    case Karachi => MethodParams(18.0, 18.0)
    case Tehran => MethodParams(17.7, 14.0)
    case Jafari => MethodParams(16.0, 14.0)
  }

  // ---------------------------------------------------------------------
  // Julian Day Number

  /**
   * The integer civil Julian Day Number. Every division is `Math.floor` of a
   * quotient by a positive constant, which is Dafny's `/` on `int`.
   */
  function JulianDate(date: CalendarDate): int {
    var a := (14 - date.month) / 12;
    var y := date.year + 4800 - a;
    var m := date.month + 12 * a - 3;
    date.day + (153 * m + 2) / 5 + 365 * y + y / 4 - y / 100 + y / 400 - 32045
  }

  predicate IsLeapYear(year: int) {
    year % 4 == 0 && (year % 100 != 0 || year % 400 == 0)
  }

  function DaysInMonth(year: int, month: int): int
    requires 1 <= month <= 12
  {
    if month == 2 then (if IsLeapYear(year) then 29 else 28)
    else if month == 4 || month == 6 || month == 9 || month == 11 then 30
    else 31
  }

  /** A day of the proleptic Gregorian calendar, the calendar of a JavaScript `Date`. */
  predicate ValidDate(date: CalendarDate) {
    1 <= date.month <= 12 && 1 <= date.day <= DaysInMonth(date.year, date.month)
  }

  function NextDay(date: CalendarDate): (next: CalendarDate)
    requires ValidDate(date)
    ensures ValidDate(next)
  {
    if date.day < DaysInMonth(date.year, date.month) then date.(day := date.day + 1)
    else if date.month == 12 then CalendarDate(date.year + 1, 1, 1)
    else CalendarDate(date.year, date.month + 1, 1)
  }

  /** The epoch of the solar formulas: 1 January 2000 is day 2451545. */
  lemma JulianDateOfJ2000()
    ensures JulianDate(CalendarDate(2000, 1, 1)) == 2451545
  {
  }

  lemma DivStep(x: int, k: int)
    requires k == 4 || k == 100 || k == 400
    ensures (x + 1) / k == x / k + (if (x + 1) % k == 0 then 1 else 0)
  {
  }

  /** From the last day of a month other than February and December to the first of the next. */
  lemma JulianDateMonthEnd(year: int, month: int)
    requires 1 <= month <= 11 && month != 2
    ensures JulianDate(CalendarDate(year, month + 1, 1))
         == JulianDate(CalendarDate(year, month, DaysInMonth(year, month))) + 1
  {
    if month == 1 {
      JulianDateJanuaryEnd(year);
    } else {
      var y := year + 4800;
      var m := month - 3;
      assert JulianDate(CalendarDate(year, month, DaysInMonth(year, month)))
          == DaysInMonth(year, month) + (153 * m + 2) / 5 + 365 * y + y / 4 - y / 100 + y / 400 - 32045;
      assert JulianDate(CalendarDate(year, month + 1, 1))
          == 1 + (153 * (m + 1) + 2) / 5 + 365 * y + y / 4 - y / 100 + y / 400 - 32045;
      MonthOffsetStep(year, month);
    }
  }

  /** From 31 January to 1 February: both lie in the March-based year before `year`. */
  lemma JulianDateJanuaryEnd(year: int)
    ensures JulianDate(CalendarDate(year, 2, 1)) == JulianDate(CalendarDate(year, 1, 31)) + 1
  {
    var y := year + 4800;
    assert JulianDate(CalendarDate(year, 1, 31)) == 31 + 306 + 365 * (y - 1) + (y - 1) / 4 - (y - 1) / 100 + (y - 1) / 400 - 32045;
    assert JulianDate(CalendarDate(year, 2, 1)) == 1 + 337 + 365 * (y - 1) + (y - 1) / 4 - (y - 1) / 100 + (y - 1) / 400 - 32045;
  }

  /** The formula's month offset grows by the month's length from March to November. */
  lemma MonthOffsetStep(year: int, month: int)
    requires 3 <= month <= 11
    ensures (153 * (month - 2) + 2) / 5 - (153 * (month - 3) + 2) / 5 == DaysInMonth(year, month)
  {
    if month == 3 {} else if month == 4 {} else if month == 5 {} else if month == 6 {}
    else if month == 7 {} else if month == 8 {} else if month == 9 {} else if month == 10 {}
    else {}
  }

  /** From 31 December to 1 January: the March-based year of the formula does not change. */
  lemma JulianDateYearEnd(year: int)
    ensures JulianDate(CalendarDate(year + 1, 1, 1)) == JulianDate(CalendarDate(year, 12, 31)) + 1
  {
    var y := year + 4800;
    assert JulianDate(CalendarDate(year, 12, 31)) == 31 + 275 + 365 * y + y / 4 - y / 100 + y / 400 - 32045;
    assert JulianDate(CalendarDate(year + 1, 1, 1)) == 1 + 306 + 365 * y + y / 4 - y / 100 + y / 400 - 32045;
  }

  /** One leap-day term steps from the March-based year `year + 4799` to the next exactly when `k` divides `year`. */
  lemma LeapTermStep(year: int, k: int)
    requires k == 4 || k == 100 || k == 400
    ensures (year + 4800) / k == (year + 4799) / k + (if year % k == 0 then 1 else 0)
  {
    DivStep(year + 4799, k);
    if k == 4 {
      assert (year + 4800) % 4 == year % 4;
    } else if k == 100 {
      assert (year + 4800) % 100 == year % 100;
    } else {
      assert (year + 4800) % 400 == year % 400;
    }
  }

  /** The leap-day terms of the formula grow by one from the March-based year `year + 4799` to the next exactly in a leap year. */
  lemma LeapTermsStep(year: int)
    ensures var y := year + 4799;
      ((y + 1) / 4 - (y + 1) / 100 + (y + 1) / 400) - (y / 4 - y / 100 + y / 400)
      == if IsLeapYear(year) then 1 else 0
  {
    LeapTermStep(year, 4);
    LeapTermStep(year, 100);
    LeapTermStep(year, 400);
  }

  /** From the end of February to 1 March: the leap-day terms of the formula step exactly in Gregorian leap years. */
  lemma JulianDateFebruaryEnd(year: int)
    ensures JulianDate(CalendarDate(year, 3, 1)) == JulianDate(CalendarDate(year, 2, DaysInMonth(year, 2))) + 1
  {
    var y := year + 4799;
    LeapTermsStep(year);
    assert JulianDate(CalendarDate(year, 2, DaysInMonth(year, 2)))
        == DaysInMonth(year, 2) + 337 + 365 * y + y / 4 - y / 100 + y / 400 - 32045;
    assert JulianDate(CalendarDate(year, 3, 1))
        == 1 + 0 + 365 * (y + 1) + (y + 1) / 4 - (y + 1) / 100 + (y + 1) / 400 - 32045;
  }

  /** The day after any valid date has the next Julian Day Number: across month ends, year ends and 29 February. */
  lemma JulianDateNextDay(date: CalendarDate)
    requires ValidDate(date)
    ensures JulianDate(NextDay(date)) == JulianDate(date) + 1
  {
    var year, month := date.year, date.month;
    if date.day < DaysInMonth(year, month) {
    } else if month == 12 {
      JulianDateYearEnd(year);
    } else if month == 2 {
      JulianDateFebruaryEnd(year);
    } else {
      JulianDateMonthEnd(year, month);
    }
  }

  // ---------------------------------------------------------------------
  // Solar position and twilight times

  /** The sun's path on one day: clock hours of sunrise, noon and sunset, and the declination in radians. */
  datatype SunPosition = SunPosition(sunrise: real, noon: real, sunset: real, declination: real)

  /** The hour angle, in degrees, at which the sun stands at elevation `angle` degrees. */
  function HourAngle(t: Trig, declination: real, latitude: real, angle: real): (h: real)
    ensures AcosInRange(t) ==> 0.0 <= h <= 180.0
  {
    var latRad := Deg2Rad(latitude);
    var angleRad := Deg2Rad(angle);
    Rad2Deg(t.acos(Quot(
      t.sin(angleRad) - t.sin(declination) * t.sin(latRad),
      t.cos(declination) * t.cos(latRad))))
  }

  function CalculateSunPosition(t: Trig, julianDate: int, location: Location): (sun: SunPosition)
    ensures sun.noon - sun.sunrise == sun.sunset - sun.noon
    ensures AcosInRange(t) ==> sun.sunrise <= sun.noon <= sun.sunset
    ensures AcosInRange(t) ==> sun.sunset - sun.sunrise <= 24.0
  {
    var D := julianDate as real - 2451545.0;
    var g := 357.529 + 0.98560028 * D;
    var q := 280.459 + 0.98564736 * D;
    var L := q + 1.915 * t.sin(Deg2Rad(g)) + 0.020 * t.sin(Deg2Rad(2.0 * g));
    var e := 23.439 - 0.00000036 * D;
    var declination := t.asin(t.sin(Deg2Rad(e)) * t.sin(Deg2Rad(L)));
    var RA := t.atan2(t.cos(Deg2Rad(e)) * t.sin(Deg2Rad(L)), t.cos(Deg2Rad(L))) / 15.0;
    var equation := q / 15.0 - RA;
    var noon := 12.0 - equation - location.longitude / 15.0;
    var sunrise := noon - HourAngle(t, declination, location.latitude, -0.833) / 15.0;
    var sunset := noon + HourAngle(t, declination, location.latitude, -0.833) / 15.0;
    SunPosition(sunrise, noon, sunset, declination)
  }

  /**
   * The unformatted time of `calculateTime`: the hour angle is taken at
   * elevation `-angle` and added to `base` when `angle` is positive,
   * subtracted otherwise.
   */
  function CalculateTimeRaw(t: Trig, base: real, angle: real, declination: real, latitude: real): (time: real)
    ensures AcosInRange(t) && angle > 0.0 ==> base <= time <= base + 12.0
    ensures AcosInRange(t) && angle <= 0.0 ==> base - 12.0 <= time <= base
    ensures time == base + HourAngle(t, declination, latitude, -angle) / 15.0
         || time == base - HourAngle(t, declination, latitude, -angle) / 15.0
  {
    var hourAngle := HourAngle(t, declination, latitude, -angle);
    base + (if angle > 0.0 then hourAngle else -hourAngle) / 15.0
  }

  function CalculateTime(t: Trig, base: real, angle: real, declination: real, latitude: real): string {
    FormatTime(CalculateTimeRaw(t, base, angle, declination, latitude))
  }

  /** The unformatted Asr time: shadow ratio 1, whatever the user's madhab. */
  function AsrTimeRaw(t: Trig, noon: real, declination: real, latitude: real): (time: real)
    ensures AcosInRange(t) ==> noon <= time <= noon + 12.0
  {
    var shadowRatio := 1.0;
    var x := latitude - Rad2Deg(declination);
    var angle := -Rad2Deg(t.atan(Quot(1.0, shadowRatio + t.tan(if x < 0.0 then -x else x))));
    var hourAngle := HourAngle(t, declination, latitude, angle);
    noon + hourAngle / 15.0
  }

  /** The six times of one day before formatting, as fractional hours. */
  datatype RawTimes = RawTimes(fajr: real, sunrise: real, dhuhr: real, asr: real, maghrib: real, isha: real)

  /**
   * The body of `calculatePrayerTimes` once the sun's position is known,
   * taking the method's table entry as `params`.
   */
  function PrayerTimesWith(t: Trig, sun: SunPosition, latitude: real, calcMethod: CalculationMethod, params: MethodParams): RawTimes {
    RawTimes(
      CalculateTimeRaw(t, sun.sunrise, -params.fajr, sun.declination, latitude),
      sun.sunrise,
      sun.noon,
      AsrTimeRaw(t, sun.noon, sun.declination, latitude),
      sun.sunset,
      if calcMethod == Makkah then CalculateTimeRaw(t, sun.sunset, 90.0 / 60.0, 0.0, 0.0)
      else CalculateTimeRaw(t, sun.sunset, params.isha, sun.declination, latitude))
  }

  function CalculatePrayerTimesRaw(t: Trig, date: CalendarDate, location: Location, calcMethod: CalculationMethod): RawTimes {
    var sun := CalculateSunPosition(t, JulianDate(date), location);
    PrayerTimesWith(t, sun, location.latitude, calcMethod, CalculationParams(calcMethod))
  }

  function CalculatePrayerTimes(t: Trig, date: CalendarDate, location: Location, calcMethod: CalculationMethod): PrayerTimes {
    var raw := CalculatePrayerTimesRaw(t, date, location, calcMethod);
    PrayerTimes(
      FormatTime(raw.fajr), FormatTime(raw.sunrise), FormatTime(raw.dhuhr),
      FormatTime(raw.asr), FormatTime(raw.maghrib), FormatTime(raw.isha))
  }

  /**
   * With a non-negative arc-cosine: Fajr is no later than sunrise, sunrise
   * no later than noon, noon no later than Asr and than sunset, and Isha no
   * earlier than sunset, for every method.
   */
  lemma RawTimesOrder(t: Trig, date: CalendarDate, location: Location, calcMethod: CalculationMethod)
    requires AcosInRange(t)
    ensures var raw := CalculatePrayerTimesRaw(t, date, location, calcMethod);
      raw.fajr <= raw.sunrise <= raw.dhuhr <= raw.maghrib <= raw.isha && raw.dhuhr <= raw.asr
  {
    var sun := CalculateSunPosition(t, JulianDate(date), location);
    var params := CalculationParams(calcMethod);
    assert -params.fajr <= 0.0;
  }

  /** Sunrise and sunset lie symmetrically about noon. */
  lemma SunriseSunsetSymmetric(t: Trig, date: CalendarDate, location: Location, calcMethod: CalculationMethod)
    ensures var raw := CalculatePrayerTimesRaw(t, date, location, calcMethod);
      raw.dhuhr - raw.sunrise == raw.maghrib - raw.dhuhr
  {
    var sun := CalculateSunPosition(t, JulianDate(date), location);
    assert sun.noon - sun.sunrise == sun.sunset - sun.noon;
  }

  /**
   * Makkah's table entry `isha: 90` never acts as an angle: the Makkah times
   * are the same whatever that entry holds, and Isha is the `calculateTime`
   * of sunset with angle 1.5, declination 0 and latitude 0.
   */
  lemma MakkahIshaIgnoresTable(t: Trig, sun: SunPosition, latitude: real, p: MethodParams, q: MethodParams)
    requires p.fajr == q.fajr
    ensures PrayerTimesWith(t, sun, latitude, Makkah, p) == PrayerTimesWith(t, sun, latitude, Makkah, q)
    ensures PrayerTimesWith(t, sun, latitude, Makkah, p).isha
         == sun.sunset + HourAngle(t, 0.0, 0.0, -1.5) / 15.0
  {
  }

  /** For every other method, Isha is `calculateTime` of sunset at the table's Isha angle. */
  lemma OtherMethodsUseIshaAngle(t: Trig, sun: SunPosition, latitude: real, calcMethod: CalculationMethod)
    requires calcMethod != Makkah
    ensures var params := CalculationParams(calcMethod);
      PrayerTimesWith(t, sun, latitude, calcMethod, params).isha
      == sun.sunset + HourAngle(t, sun.declination, latitude, -params.isha) / 15.0
  {
  }

  // ---------------------------------------------------------------------
  // "HH:MM" formatting

  /** `Math.round`: halves go up. */
  function Round(x: real): (n: int)
    ensures n as real - 0.5 <= x < n as real + 0.5
  {
    (x + 0.5).Floor
  }

  /** JavaScript's `%` on integers: the remainder takes the sign of the dividend. */
  function JsRem(a: int, b: int): (r: int)
    requires b > 0
    ensures a >= 0 ==> r == a % b
    ensures a < 0 ==> -b < r <= 0
    ensures (a - r) % b == 0
  {
    RemaindersLeaveMultiples(a, b);
    if a >= 0 then a % b else -((-a) % b)
  }

  /** Taking away the remainder, of the dividend or of its negation, leaves a multiple of `b`. */
  lemma RemaindersLeaveMultiples(a: int, b: int)
    requires b > 0
    ensures (a - a % b) % b == 0
    ensures (a + (-a) % b) % b == 0
  {
    var q := a / b;
    assert a - a % b == b * q;
    MultipleRemainder(b, q);
    var p := (-a) / b;
    assert a + (-a) % b == b * -p;
    MultipleRemainder(b, -p);
  }

  lemma MulAtLeast(b: int, x: int)
    requires b > 0 && x >= 1
    ensures b * x >= b
  {
  }

  /** A multiple of `b` leaves no remainder. */
  lemma MultipleRemainder(b: int, k: int)
    requires b > 0
    ensures (b * k) % b == 0
  {
    var d := (b * k) / b;
    var m := (b * k) % b;
    assert m == b * (k - d);
    if k - d >= 1 {
      MulAtLeast(b, k - d);
      assert false;
    } else if d - k >= 1 {
      MulAtLeast(b, d - k);
      assert false;
    }
  }

  /** `formatTime`: floor the hours, round the minutes, reduce each by `%`, pad each to two characters. */
  function FormatTime(hours: real): string {
    var h := hours.Floor;
    var m := Round((hours - h as real) * 60.0);
    ClockText(h, m)
  }

  /** The template literal: hours modulo 24 and minutes modulo 60, each padded to two digits, joined by ':'. */
  function ClockText(h: int, m: int): string {
    PadStart2(IntToString(JsRem(h, 24))) + ":" + PadStart2(IntToString(JsRem(m, 60)))
  }

  /** A well-formed clock string "HH:MM" with minute below 60. */
  predicate WellFormedClock(s: string) {
    |s| == 5 && IsDigit(s[0]) && IsDigit(s[1]) && s[2] == ':' && IsDigit(s[3]) && IsDigit(s[4]) && s[3] <= '5'
  }

  function ClockHour(s: string): int
    requires WellFormedClock(s)
  {
    DigitValue(s[0]) * 10 + DigitValue(s[1])
  }

  function ClockMinute(s: string): int
    requires WellFormedClock(s)
  {
    DigitValue(s[3]) * 10 + DigitValue(s[4])
  }

  lemma PaddedTwoDigits(n: int)
    requires 0 <= n <= 99
    ensures var s := PadStart2(IntToString(n));
      |s| == 2 && IsDigit(s[0]) && IsDigit(s[1]) && DigitValue(s[0]) * 10 + DigitValue(s[1]) == n
  {
    TwoDigits(n);
  }

  /**
   * For non-negative hours the result is a clock string whose hour is the
   * whole hours modulo 24 and whose minute is the rounded fraction modulo 60
   * (a fraction that rounds up to 60 gives minute 0 and no carry). Inside
   * one day the hour is exactly the whole hours.
   */
  lemma FormatTimeNonNegative(hours: real)
    requires hours >= 0.0
    ensures var s := FormatTime(hours);
      WellFormedClock(s)
      && ClockHour(s) == hours.Floor % 24
      && ClockMinute(s) == Round((hours - hours.Floor as real) * 60.0) % 60
      && (hours < 24.0 ==> ClockHour(s) == hours.Floor)
  {
    var h := hours.Floor;
    var m := Round((hours - h as real) * 60.0);
    WholeFieldsNonNegative(hours);
    ClockOfWholeFields(h, m);
  }

  /** Non-negative hours have non-negative whole hours, below 24 inside one day, and non-negative rounded minutes. */
  lemma WholeFieldsNonNegative(hours: real)
    requires hours >= 0.0
    ensures 0 <= hours.Floor && (hours < 24.0 ==> hours.Floor < 24)
    ensures 0 <= Round((hours - hours.Floor as real) * 60.0)
  {
    var fraction := hours - hours.Floor as real;
    assert 0.0 <= fraction;
    assert 0.0 <= fraction * 60.0;
  }

  /** Non-negative whole hours and minutes, wrapped with JavaScript's `%`, give the clock string of their remainders. */
  lemma ClockOfWholeFields(h: int, m: int)
    requires h >= 0 && m >= 0
    ensures var s := ClockText(h, m);
      WellFormedClock(s) && ClockHour(s) == h % 24 && ClockMinute(s) == m % 60
      && (h < 24 ==> ClockHour(s) == h)
  {
    ClockOf(h % 24, m % 60);
  }

  /** An hour 0..23 and a minute 0..59, padded and joined by ':', form the clock string that reads back as them. */
  lemma ClockOf(hour: int, minute: int)
    requires 0 <= hour < 24 && 0 <= minute < 60
    ensures var s := PadStart2(IntToString(hour)) + ":" + PadStart2(IntToString(minute));
      WellFormedClock(s) && ClockHour(s) == hour && ClockMinute(s) == minute
  {
    var hh := PadStart2(IntToString(hour));
    var mm := PadStart2(IntToString(minute));
    PaddedTwoDigits(hour);
    PaddedTwoDigits(minute);
    assert mm[0] <= '5' by {
      TwoDigits(minute);
      assert minute / 10 <= 5;
    }
    var s := hh + ":" + mm;
    assert s[0] == hh[0] && s[1] == hh[1] && s[2] == ':' && s[3] == mm[0] && s[4] == mm[1];
  }

  /** A fraction that rounds to 60 minutes gives minute "00" and no carry into the hour. */
  lemma FormatTimeNoCarry()
    ensures FormatTime(12.9999) == "12:00"
  {
    assert (12.9999).Floor == 12;
    assert Round((12.9999 - 12.0) * 60.0) == 60;
    TwoDigits(12);
    TwoDigits(0);
  }

  /** Hours past 24 wrap by remainder. */
  lemma FormatTimeWraps()
    ensures FormatTime(25.5) == "01:30"
  {
    assert (25.5).Floor == 25;
    assert Round((25.5 - 25.0) * 60.0) == 30;
    TwoDigits(1);
    TwoDigits(30);
  }

  /** Negative hours keep their sign, as JavaScript's `%` does. */
  lemma FormatTimeNegative()
    ensures FormatTime(-0.5) == "-1:30"
  {
    assert (-0.5).Floor == -1;
    assert Round((-0.5 - (-1.0)) * 60.0) == 30;
    assert IntToString(-1) == "-1";
    TwoDigits(30);
  }

  // ---------------------------------------------------------------------
  // The next prayer

  datatype NamedTime = NamedTime(name: string, time: string)

  /** The candidates in scan order; Sunrise is not among them. */
  function Candidates(times: PrayerTimes): (c: seq<NamedTime>)
    ensures |c| == 5
    ensures forall i :: 0 <= i < |c| ==> c[i].name != "Sunrise"
    ensures c[0] == NamedTime("Fajr", times.fajr)
  {
    [NamedTime("Fajr", times.fajr), NamedTime("Dhuhr", times.dhuhr), NamedTime("Asr", times.asr),
     NamedTime("Maghrib", times.maghrib), NamedTime("Isha", times.isha)]
  }

  /** The position of the first candidate whose time is strictly after `current`, or |c| if there is none. */
  function FirstAfter(c: seq<NamedTime>, current: string): (k: nat)
    ensures k <= |c|
    ensures k < |c| ==> LexLess(current, c[k].time)
    ensures forall j :: 0 <= j < k ==> !LexLess(current, c[j].time)
    decreases |c|
  {
    if |c| == 0 then 0
    else if LexLess(current, c[0].time) then 0
    else 1 + FirstAfter(c[1..], current)
  }

  /**
   * `getNextPrayer` with the clock reading `currentTime` ("HH:mm") as a
   * parameter: the first candidate whose time string is greater, else Fajr.
   */
  method GetNextPrayer(times: PrayerTimes, currentTime: string) returns (next: NamedTime)
    ensures var c := Candidates(times); var k := FirstAfter(c, currentTime);
      next == if k < |c| then c[k] else NamedTime("Fajr", times.fajr)
    ensures next.name != "Sunrise"
  {
    var prayers := Candidates(times);
    var i := 0;
    while i < |prayers|
      invariant 0 <= i <= |prayers|
      invariant forall j :: 0 <= j < i ==> !LexLess(currentTime, prayers[j].time)
    {
      if LexLess(currentTime, prayers[i].time) {
        return prayers[i];
      }
      i := i + 1;
    }
    return NamedTime("Fajr", times.fajr);
  }

  function ClockMinutes(s: string): int
    requires WellFormedClock(s)
  {
    ClockHour(s) * 60 + ClockMinute(s)
  }

  /** String comparison of two five-character strings, unrolled. */
  lemma LexLessFive(a: string, b: string)
    requires |a| == 5 && |b| == 5
    ensures LexLess(a, b) <==>
      a[0] < b[0] || (a[0] == b[0] && (a[1] < b[1] || (a[1] == b[1] && (a[2] < b[2] || (a[2] == b[2] &&
      (a[3] < b[3] || (a[3] == b[3] && a[4] < b[4])))))))
  {
    var a1, b1 := a[1..], b[1..];
    var a2, b2 := a1[1..], b1[1..];
    var a3, b3 := a2[1..], b2[1..];
    var a4, b4 := a3[1..], b3[1..];
    assert LexLess(a4, b4) == (a4[0] < b4[0]) by {
      assert |a4[1..]| == 0 && |b4[1..]| == 0;
    }
    assert LexLess(a3, b3) == (if a3[0] != b3[0] then a3[0] < b3[0] else LexLess(a4, b4));
    assert LexLess(a2, b2) == (if a2[0] != b2[0] then a2[0] < b2[0] else LexLess(a3, b3));
    assert LexLess(a1, b1) == (if a1[0] != b1[0] then a1[0] < b1[0] else LexLess(a2, b2));
    assert LexLess(a, b) == (if a[0] != b[0] then a[0] < b[0] else LexLess(a1, b1));
  }

  /** On well-formed clock strings, the string comparison the search uses is the comparison of clock times. */
  lemma LexOrderIsClockOrder(a: string, b: string)
    requires WellFormedClock(a) && WellFormedClock(b)
    ensures LexLess(a, b) <==> ClockMinutes(a) < ClockMinutes(b)
  {
    LexLessFive(a, b);
  }

  // ---------------------------------------------------------------------
  // Qibla

  const KaabaLatitude: real := 21.4225
  const KaabaLongitude: real := 39.8262

  /** Truncation toward zero. */
  function Trunc(x: real): int {
    if x >= 0.0 then x.Floor else -((-x).Floor)
  }

  /** JavaScript's `%` on numbers: `a - b * trunc(a / b)`. */
  function JsRealRem(a: real, b: real): real
    requires b > 0.0
  {
    a - b * Trunc(a / b) as real
  }

  /** The last step of `getQiblaDirection`: `(deg + 360) % 360`. */
  function NormaliseBearing(deg: real): real {
    JsRealRem(deg + 360.0, 360.0)
  }

  /** On the range of a degree-converted `atan2` the normalisation lands in [0, 360) and only shifts negatives by 360. */
  lemma NormaliseBearingRange(deg: real)
    requires -180.0 <= deg <= 180.0
    ensures 0.0 <= NormaliseBearing(deg) < 360.0
    ensures NormaliseBearing(deg) == if deg < 0.0 then deg + 360.0 else deg
  {
    var a := deg + 360.0;
    if deg < 0.0 {
      assert Trunc(a / 360.0) == 0;
    } else {
      assert Trunc(a / 360.0) == 1;
    }
  }

  function GetQiblaDirection(t: Trig, location: Location): real {
    var lat1 := Deg2Rad(location.latitude);
    var lat2 := Deg2Rad(KaabaLatitude);
    var deltaLng := Deg2Rad(KaabaLongitude - location.longitude);
    var x := t.sin(deltaLng) * t.cos(lat2);
    var y := t.cos(lat1) * t.sin(lat2) - t.sin(lat1) * t.cos(lat2) * t.cos(deltaLng);
    var bearing := t.atan2(x, y);
    NormaliseBearing(Rad2Deg(bearing))
  }

  /** The Qibla bearing is in [0, 360) whenever `atan2` keeps to its range. */
  lemma QiblaDirectionInRange(t: Trig, location: Location)
    requires Atan2InRange(t)
    ensures 0.0 <= GetQiblaDirection(t, location) < 360.0
  {
    var lat1 := Deg2Rad(location.latitude);
    var lat2 := Deg2Rad(KaabaLatitude);
    var deltaLng := Deg2Rad(KaabaLongitude - location.longitude);
    var x := t.sin(deltaLng) * t.cos(lat2);
    var y := t.cos(lat1) * t.sin(lat2) - t.sin(lat1) * t.cos(lat2) * t.cos(deltaLng);
    var bearing := t.atan2(x, y);
    assert -PI <= bearing <= PI;
    NormaliseBearingRange(Rad2Deg(bearing));
  }
}
