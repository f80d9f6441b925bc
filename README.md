# Revert Companion: a Dafny model of its logic

Revert Companion is a React Native app for people new to Islam. It has the following parts:
- prayer times computed from the sun's position;
- a Qibla bearing;
- a prayer tracker with streaks and points;
- short lessons;
- an approximate Hijri calendar;
- a zakat calculator.

This project models the parts of the app that compute something, and proves what they guarantee:

- `types.dfy` holds the shared records: prayer times, preferences, the progress record and lessons. A lesson is a class, because the lesson screen flips `completed` on the very object its module lists.
- `js_string.dfy` holds the JavaScript string operations the code relies on: `indexOf`, `includes`, `startsWith`, `endsWith`, `split`, `trim`, `replace`, `padStart`, `toString` and string `<`.
- `prayer_calculations.dfy` covers:
  - the calculation-method table;
  - the Julian Day Number;
  - the solar position and twilight times;
  - the `"HH:MM"` formatter;
  - the next-prayer search;
  - the Qibla bearing.
- `storage.dfy` holds the progress store. It records a prayer, marks a lesson complete, and gives the defaults when nothing is stored.
- `progress_tracker.dfy` covers total prayers, the completion rate, achievements and recent activity.
- `islamic_calendar.dfy` holds the Hijri approximation and the notable-day lookup.
- `lesson_detail.dfy` covers the lesson screen:
  - splitting lesson text into headings, bullet lists and paragraphs;
  - loading a lesson;
  - navigating between lessons;
  - marking a lesson complete.
- `zakat_calculator.dfy` holds the zakat calculator card.

Several things outside the code become parameters:
- The trigonometric functions are the fields of a `Trig` value. The model does not compute them. Only their ranges are assumed, where a statement needs them: `acos` in [0, π] and `atan2` in [−π, π].
- The clock readings are plain inputs: the current `"HH:mm"` and today's date.
- The key-value store is the object `ProgressStore`.
- The number parser of the zakat card is a function to `Option<real>`.
- The static lesson catalogue is a list of modules passed to `LoadLesson`.

Where the app's comments, or the usual astronomy, suggest something other than what the code does, the model follows the code:

- **Right ascension.** It is `atan2(...)` in radians divided by 15 (`utils/prayerCalculations.ts:57`), although the formula mixes it with hours. The mean longitude `q` is not reduced to [0, 360).
- **Fajr.** It is computed from sunrise, not from noon, with the hour angle taken at elevation `+fajr` (`utils/prayerCalculations.ts:26`, `:78`).
- **Makkah Isha.** It is not a flat 90 minutes after sunset. It is `calculateTime(sunset, 90/60, 0, 0)`, which is an hour angle at elevation −1.5° for declination 0 and latitude 0 (`utils/prayerCalculations.ts:31-33`). The table's `isha: 90` is never read.
- **Asr.** It always uses shadow ratio 1, whatever the stored madhab (`utils/prayerCalculations.ts:84`).
- **Zakat.** It is 2.5 % of the whole total once the total reaches the nisab threshold, not 2.5 % of the excess (`components/ZakatCalculator.tsx:49-54`).
- **Hijri conversion.** It is the app's display approximation. Every Gregorian June comes out as Ramadan.

## Model

| member | source | states |
|---|---|---|
| Types.DayPrayers.Set | revert-companion/src/utils/storage.ts:120 | setting one prayer's flag gives that flag the new value and keeps the other four |
| Types.DayPrayers.PrayedCount | revert-companion/src/components/ProgressTracker.tsx:22 | the number of true flags of a day is at most 5, and is 5 exactly when all five are prayed |
| Types.DayPrayers.AllPrayedEveryPrayer | revert-companion/src/utils/storage.ts:125 | a day counts as all prayed exactly when every one of the five prayers is marked prayed; the same test picks complete days in revert-companion/src/components/ProgressTracker.tsx:31 |
| Types.Lesson.Copy | revert-companion/src/screens/LessonDetailScreen.tsx:53 | the spread copy `{ ...lesson }` has every field of the original |
| JsString.NatToString | revert-companion/src/utils/prayerCalculations.ts:97 | `toString` of a natural number is a non-empty string of decimal digits that denotes exactly that number (`DigitsValue`), with no leading '0' unless the number is 0, and one digit long exactly below 10 |
| JsString.IntToString | revert-companion/src/utils/prayerCalculations.ts:97 | `toString` of an integer starts with '-' exactly when it is negative; a negative number is '-' followed by the decimal digits of its magnitude, any other is its decimal digits |
| JsString.IntToStringValue | revert-companion/src/utils/prayerCalculations.ts:97 | the digits after the optional '-' read back as the magnitude of the number, with no leading '0' except for 0 |
| JsString.PadStart2 | revert-companion/src/utils/prayerCalculations.ts:97 | `padStart(2, '0')` leaves strings of length 2 or more alone and left-fills shorter ones with '0' up to length 2 |
| JsString.TwoDigits | revert-companion/src/utils/prayerCalculations.ts:97 | a number 0..99 renders, padded, as exactly its tens and units digits |
| JsString.LexLess | revert-companion/src/utils/prayerCalculations.ts:137 | string `<`, with no contract of its own; `LexLessIrreflexive`, `LexLessAsymmetric` and `LexOrderIsClockOrder` state its properties |
| JsString.LexLessIrreflexive | revert-companion/src/utils/prayerCalculations.ts:137 | no time string is later than itself |
| JsString.LexLessAsymmetric | revert-companion/src/utils/prayerCalculations.ts:137 | of two time strings at most one is later than the other |
| JsString.IndexOfFrom | revert-companion/src/screens/LessonDetailScreen.tsx:69 | the first occurrence of the pattern at or after a position, or -1 exactly when there is none |
| JsString.Includes | revert-companion/src/screens/LessonDetailScreen.tsx:83 | `includes` holds exactly when the pattern occurs somewhere |
| JsString.StartsWith | revert-companion/src/screens/LessonDetailScreen.tsx:73 | `startsWith` holds exactly when the string is the prefix followed by some rest |
| JsString.EndsWith | revert-companion/src/screens/LessonDetailScreen.tsx:73 | `endsWith` holds exactly when the string is some beginning followed by the suffix |
| JsString.IndexOf | revert-companion/src/screens/LessonDetailScreen.tsx:83 | `indexOf` is -1 exactly when the pattern never occurs, else the first position where it occurs |
| JsString.Split | revert-companion/src/screens/LessonDetailScreen.tsx:69 | `split` yields at least one piece; `JoinSplit`, `SplitPiecesLackSeparator` and `SplitCutsAtLeftmost` pin the pieces down |
| JsString.SplitCutsAtLeftmost | revert-companion/src/screens/LessonDetailScreen.tsx:69 | every cut is at the leftmost occurrence of the separator: each piece but the last, followed by the separator, first meets the separator right after the piece |
| JsString.JoinSplit | revert-companion/src/screens/LessonDetailScreen.tsx:69 | joining the pieces of a split with the separator gives back the original string |
| JsString.SplitPiecesLackSeparator | revert-companion/src/screens/LessonDetailScreen.tsx:69 | no piece of a split contains the separator |
| JsString.TrimStart | revert-companion/src/screens/LessonDetailScreen.tsx:88 | drops exactly the leading white space: a suffix of the input, everything dropped is white space, and it does not start with white space |
| JsString.Trim | revert-companion/src/screens/LessonDetailScreen.tsx:88 | `trim()` is a contiguous slice of the line with only white space dropped before and after it; it is empty exactly when the line is all white space, and otherwise neither starts nor ends with white space |
| JsString.TrimEnd | revert-companion/src/screens/LessonDetailScreen.tsx:93 | drops exactly the trailing white space: a prefix of the input, everything dropped is white space, and it does not end with white space |
| JsString.RemoveFirst | revert-companion/src/screens/LessonDetailScreen.tsx:93 | `replace('•', '')` removes exactly the first bullet (no bullet before the removed position, the text around it kept), one character shorter; without a bullet the line is unchanged |
| PrayerCalculations.CalculationParams | revert-companion/src/utils/prayerCalculations.ts:5-13 | every one of the seven methods has an entry with positive angles; every entry except Makkah's Isha is an angle below 90 |
| PrayerCalculations.NextDay | revert-companion/src/utils/prayerCalculations.ts:39-46 | the day after a valid Gregorian date is a valid date |
| PrayerCalculations.JulianDate | revert-companion/src/utils/prayerCalculations.ts:39-46 | `getJulianDate`, with no contract of its own; `JulianDateOfJ2000` fixes its epoch and `JulianDateNextDay` proves consecutive valid dates get consecutive numbers |
| PrayerCalculations.JulianDateOfJ2000 | revert-companion/src/utils/prayerCalculations.ts:39-46 | 1 January 2000 has Julian Day Number 2451545, the epoch of the solar formulas |
| PrayerCalculations.DivStep | revert-companion/src/utils/prayerCalculations.ts:45 | each leap-year floor term rises by one exactly when the year reaches its multiple of 4, 100 or 400 |
| PrayerCalculations.JulianDateMonthEnd | revert-companion/src/utils/prayerCalculations.ts:39-46 | the first of the next month follows the last day of January and of March to November by one |
| PrayerCalculations.JulianDateYearEnd | revert-companion/src/utils/prayerCalculations.ts:39-46 | 1 January follows 31 December by one |
| PrayerCalculations.JulianDateFebruaryEnd | revert-companion/src/utils/prayerCalculations.ts:39-46 | 1 March follows the last day of February by one, in leap and common years alike |
| PrayerCalculations.JulianDateNextDay | revert-companion/src/utils/prayerCalculations.ts:39-46 | for every valid date, the next calendar day has the next Julian Day Number |
| PrayerCalculations.HourAngle | revert-companion/src/utils/prayerCalculations.ts:67-75 | with `acos` in [0, π] the hour angle lies in [0°, 180°] |
| PrayerCalculations.Deg2Rad | revert-companion/src/utils/prayerCalculations.ts:100-102 | `deg2rad` maps 180° to π and keeps the sign |
| PrayerCalculations.Rad2Deg | revert-companion/src/utils/prayerCalculations.ts:104-106 | `rad2deg` maps π to 180° and keeps the sign |
| PrayerCalculations.AngleConversionsInverse | revert-companion/src/utils/prayerCalculations.ts:100-106 | `deg2rad` and `rad2deg` undo each other in both orders |
| PrayerCalculations.CalculateSunPosition | revert-companion/src/utils/prayerCalculations.ts:48-65 | noon is the midpoint of sunrise and sunset; with `acos` in range, sunrise ≤ noon ≤ sunset and the day lasts at most 24 hours |
| PrayerCalculations.CalculateTimeRaw | revert-companion/src/utils/prayerCalculations.ts:77-81 | the time is the base moved by hourAngle/15: forward, by up to 12 hours, when the angle is positive, and backward otherwise |
| PrayerCalculations.CalculateTime | revert-companion/src/utils/prayerCalculations.ts:77-81 | `calculateTime`, with no contract of its own: the formatted `CalculateTimeRaw` |
| PrayerCalculations.AsrTimeRaw | revert-companion/src/utils/prayerCalculations.ts:83-89 | with `acos` in range, Asr lies between noon and noon + 12 hours |
| PrayerCalculations.PrayerTimesWith | revert-companion/src/utils/prayerCalculations.ts:25-34 | the six times of `calculatePrayerTimes`, with no contract of its own; `RawTimesOrder`, `MakkahIshaIgnoresTable` and `OtherMethodsUseIshaAngle` state how they relate |
| PrayerCalculations.CalculatePrayerTimesRaw | revert-companion/src/utils/prayerCalculations.ts:20-22 | the sun's position of the day's Julian Day Number and the method's table entry feed `PrayerTimesWith`; no contract of its own |
| PrayerCalculations.CalculatePrayerTimes | revert-companion/src/utils/prayerCalculations.ts:15-37 | `calculatePrayerTimes`, with no contract of its own: each field is the formatted raw time |
| PrayerCalculations.RawTimesOrder | revert-companion/src/utils/prayerCalculations.ts:15-37 | for every method, with `acos` in range: Fajr ≤ sunrise ≤ noon ≤ sunset ≤ Isha, and noon ≤ Asr |
| PrayerCalculations.SunriseSunsetSymmetric | revert-companion/src/utils/prayerCalculations.ts:60-62 | noon − sunrise = sunset − noon in the computed times |
| PrayerCalculations.MakkahIshaIgnoresTable | revert-companion/src/utils/prayerCalculations.ts:31-33 | the Makkah times do not depend on the table's Isha entry; Isha is sunset plus the hour angle at −1.5° for declination 0 and latitude 0, over 15 |
| PrayerCalculations.OtherMethodsUseIshaAngle | revert-companion/src/utils/prayerCalculations.ts:33 | for any other method Isha is sunset plus the hour angle at the table's Isha depression, over 15 |
| PrayerCalculations.Round | revert-companion/src/utils/prayerCalculations.ts:93 | `Math.round` gives the integer within one half below and strictly less than one half above |
| PrayerCalculations.JsRem | revert-companion/src/utils/prayerCalculations.ts:94-95 | JavaScript `%`: the Euclidean remainder for a non-negative dividend; in (−b, 0] for a negative one; in both cases the dividend minus the result is a multiple of b, which with the bounds fixes the truncating remainder |
| PrayerCalculations.FormatTime | revert-companion/src/utils/prayerCalculations.ts:91-98 | `formatTime`, with no contract of its own; the `FormatTime…` lemmas below state what it returns |
| PrayerCalculations.PaddedTwoDigits | revert-companion/src/utils/prayerCalculations.ts:97 | a padded number 0..99 is two digits that read back as the number |
| PrayerCalculations.FormatTimeNonNegative | revert-companion/src/utils/prayerCalculations.ts:91-98 | for hours ≥ 0 the result is "HH:MM" (minute 00..59) with hour = floor mod 24 and minute = rounded fraction mod 60; for hours in [0, 24) the hour is exactly the whole hours |
| PrayerCalculations.FormatTimeNoCarry | revert-companion/src/utils/prayerCalculations.ts:93-95 | 12.9999 formats as "12:00": a minute rounding to 60 becomes 00 without carrying into the hour |
| PrayerCalculations.FormatTimeWraps | revert-companion/src/utils/prayerCalculations.ts:94 | 25.5 formats as "01:30" |
| PrayerCalculations.FormatTimeNegative | revert-companion/src/utils/prayerCalculations.ts:92-97 | −0.5 formats as "-1:30": the hour keeps its sign under `%` |
| PrayerCalculations.Candidates | revert-companion/src/utils/prayerCalculations.ts:128-134 | five candidates, Fajr first, none of them Sunrise |
| PrayerCalculations.FirstAfter | revert-companion/src/utils/prayerCalculations.ts:136-140 | the first candidate whose time string is greater than the current one, with every earlier candidate not greater |
| PrayerCalculations.GetNextPrayer | revert-companion/src/utils/prayerCalculations.ts:124-143 | the result is the first candidate after the current time, or Fajr with its time when none is; it is never Sunrise |
| PrayerCalculations.LexLessFive | revert-companion/src/utils/prayerCalculations.ts:137 | on five-character strings `<` compares character by character |
| PrayerCalculations.LexOrderIsClockOrder | revert-companion/src/utils/prayerCalculations.ts:137 | on well-formed "HH:MM" strings the string comparison is exactly the comparison of minutes since midnight |
| PrayerCalculations.JsRealRem | revert-companion/src/utils/prayerCalculations.ts:121 | JavaScript `%` on numbers, `a − b·trunc(a/b)`, with no contract of its own; `NormaliseBearingRange` states its value for the one divisor used |
| PrayerCalculations.NormaliseBearing | revert-companion/src/utils/prayerCalculations.ts:121 | `(deg + 360) % 360`, with no contract of its own; `NormaliseBearingRange` states its range and value |
| PrayerCalculations.NormaliseBearingRange | revert-companion/src/utils/prayerCalculations.ts:121 | for degrees in [−180, 180], `(deg + 360) % 360` lies in [0, 360) and equals deg + 360 for negatives, deg otherwise |
| PrayerCalculations.GetQiblaDirection | revert-companion/src/utils/prayerCalculations.ts:108-122 | `getQiblaDirection`, with no contract of its own; `QiblaDirectionInRange` states its range |
| PrayerCalculations.QiblaDirectionInRange | revert-companion/src/utils/prayerCalculations.ts:108-122 | with `atan2` in [−π, π] the Qibla bearing lies in [0, 360) |
| Storage.GetUserPreferences | revert-companion/src/utils/storage.ts:13-34 | the stored preferences when there are any; otherwise MWL, notifications on 15 minutes ahead with sound, light theme, English, Shafi |
| Storage.GetUserProgress | revert-companion/src/utils/storage.ts:48-66 | the stored progress when there is any; otherwise no days, no lessons, streak 0 and 0 points |
| Storage.RecordedPrayer | revert-companion/src/utils/storage.ts:110-130 | the date gains a record if it had none; only the named prayer changes, to `prayed`; other dates and lessons stay; streak +1 and points +50 exactly when the date is today and all five are prayed, else both unchanged |
| Storage.MarkedLesson | revert-companion/src/utils/storage.ts:143-147 | an id already present changes nothing; a new id is appended and adds 25 points; days and streak never change |
| Storage.StoredAfterMark | revert-companion/src/utils/storage.ts:139-151 | after marking, whatever is stored holds the id; marking a present id leaves the store as it was, and a new id stores the record with the id appended and 25 more points |
| Storage.MarkedLessonIdempotent | revert-companion/src/utils/storage.ts:143-147 | completing a lesson twice is completing it once |
| Storage.StoredAfterMarkIdempotent | revert-companion/src/utils/storage.ts:139-151 | a second `markLessonComplete` with the same id leaves the store as the first left it |
| Storage.MarkedLessonKeepsNoDuplicates | revert-companion/src/utils/storage.ts:143-144 | a duplicate-free lesson list stays duplicate-free |
| Storage.StreakAwardRepeats | revert-companion/src/utils/storage.ts:124-130 | recording a prayed prayer again on a complete today awards the streak and 50 points a second time |
| Storage.UpdatesNeverLowerScores | revert-companion/src/utils/storage.ts:127-128 | neither update lowers the streak or the points |
| Storage.ProgressStore.constructor | revert-companion/src/utils/storage.ts:48-56 | a store slot starts with the given content |
| Storage.ProgressStore.RecordPrayer | revert-companion/src/utils/storage.ts:102-136 | after the call the store holds the loaded (or empty) record updated as `RecordedPrayer` says |
| Storage.ProgressStore.MarkLessonComplete | revert-companion/src/utils/storage.ts:139-151 | after the call the store holds what `StoredAfterMark` says: saved only for a new id |
| ProgressTracker.TotalPrayersOver | revert-companion/src/components/ProgressTracker.tsx:20-25 | the prayed flags over a set of days number at most five per day |
| ProgressTracker.CompleteDaysOver | revert-companion/src/components/ProgressTracker.tsx:31-33 | the complete days among a set of days are at most that many |
| ProgressTracker.TotalPrayers | revert-companion/src/components/ProgressTracker.tsx:20-25 | the total prayers are at most 5 × the number of recorded days |
| ProgressTracker.CompleteDays | revert-companion/src/components/ProgressTracker.tsx:28-33 | the complete days are at most the recorded days |
| ProgressTracker.TotalPrayersOverRemove | revert-companion/src/components/ProgressTracker.tsx:21-23 | the sum does not depend on the order the days are visited in |
| ProgressTracker.CompleteDaysOverRemove | revert-companion/src/components/ProgressTracker.tsx:31-33 | the count of complete days does not depend on the order the days are visited in |
| ProgressTracker.CompleteDaysCountFivePrayers | revert-companion/src/components/ProgressTracker.tsx:20-33 | every complete day contributes five prayers: 5 × complete days ≤ total prayers |
| ProgressTracker.NewDayAddsItsPrayers | revert-companion/src/components/ProgressTracker.tsx:20-25 | recording a new day adds exactly that day's prayed flags to the total |
| ProgressTracker.TotalPrayersOverSameEntries | revert-companion/src/components/ProgressTracker.tsx:21-23 | the total over some days reads only those days' records |
| ProgressTracker.GetTotalPrayers | revert-companion/src/components/ProgressTracker.tsx:20-25 | the reduce over the days computes the number of true flags across all recorded days |
| ProgressTracker.CountCompleteDays | revert-companion/src/components/ProgressTracker.tsx:31-33 | the filter counts exactly the days with all five prayers prayed |
| ProgressTracker.CompletionRate | revert-companion/src/components/ProgressTracker.tsx:27-36 | 0 for no days; otherwise the whole percentage nearest to complete/total (halves up); always in [0, 100]; 100 when every day is complete, 0 when none is |
| ProgressTracker.GetCompletionRate | revert-companion/src/components/ProgressTracker.tsx:27-36 | the rate of the recorded days, in [0, 100] |
| ProgressTracker.Details | revert-companion/src/components/ProgressTracker.tsx:42-99 | exactly the four earned kinds are unlocked entries |
| ProgressTracker.LockedMirrorsGoal | revert-companion/src/components/ProgressTracker.tsx:82-100 | a locked placeholder shows the title, text and icon of its goal under its own id |
| ProgressTracker.DetailsIdsDistinct | revert-companion/src/components/ProgressTracker.tsx:42-99 | different entries carry different ids |
| ProgressTracker.AchievementList | revert-companion/src/components/ProgressTracker.tsx:38-100 | week iff streak ≥ 7 and week_locked iff < 7; month iff ≥ 30 and month_locked iff < 30; century iff ≥ 100 prayers; learner iff ≥ 10 lessons; in push order; at most four |
| ProgressTracker.PushAchievements | revert-companion/src/components/ProgressTracker.tsx:39-100 | the successive pushes build exactly that list |
| ProgressTracker.GetAchievements | revert-companion/src/components/ProgressTracker.tsx:38-103 | `slice(0, 6)` keeps every pushed entry, in order, as its object; ids are distinct |
| ProgressTracker.Reverse | revert-companion/src/components/ProgressTracker.tsx:157 | `reverse()` puts element i at position n−1−i |
| ProgressTracker.RecentActivity | revert-companion/src/components/ProgressTracker.tsx:157 | the last min(3, n) completed ids, most recent first |
| IslamicCalendar.IslamicYear | revert-companion/src/components/IslamicCalendar.tsx:17 | from the year 622 on, the Islamic year count is at least the number of Gregorian years since 622; `IslamicYearMonotone` shows it never goes back |
| IslamicCalendar.IslamicMonth | revert-companion/src/components/IslamicCalendar.tsx:18 | a Gregorian month 1..12 gives an Islamic month 1..12, so the name lookup is defined |
| IslamicCalendar.IslamicDay | revert-companion/src/components/IslamicCalendar.tsx:19-28 | the shown day is in 1..29 |
| IslamicCalendar.GetIslamicDate | revert-companion/src/components/IslamicCalendar.tsx:11-33 | day in 1..29, a month name from the list, and `hijri` is "day month year AH" built from the returned fields |
| IslamicCalendar.HijriShape | revert-companion/src/components/IslamicCalendar.tsx:31 | the display string starts with a digit and ends with " AH" |
| IslamicCalendar.IslamicDayKeepsDay | revert-companion/src/components/IslamicCalendar.tsx:19-28 | for days 1..31 the shown day is the Gregorian day up to 29, and 1 on the 30th and 31st |
| IslamicCalendar.MonthShift | revert-companion/src/components/IslamicCalendar.tsx:18 | months 10..12 become 1..3 and months 1..9 become 4..12 |
| IslamicCalendar.OctoberIsMuharram | revert-companion/src/components/IslamicCalendar.tsx:18-29 | October gives month 1, Muharram |
| IslamicCalendar.MonthMapBijective | revert-companion/src/components/IslamicCalendar.tsx:18 | two Gregorian months give the same Islamic month only when they are equal |
| IslamicCalendar.IslamicYearMonotone | revert-companion/src/components/IslamicCalendar.tsx:17 | a later Gregorian year never gives an earlier Islamic year |
| IslamicCalendar.GetImportantDate | revert-companion/src/components/IslamicCalendar.tsx:38-71 | Laylat al-Qadr and Eid al-Adha are never returned |
| IslamicCalendar.ImportantDateTable | revert-companion/src/components/IslamicCalendar.tsx:42-70 | which month and day yield Ramadan, Hajj, New Year, Mawlid, Miraj, Bara'ah and Eid al-Fitr, and null exactly for every other month and day |
| IslamicCalendar.JuneIsRamadan | revert-companion/src/components/IslamicCalendar.tsx:18-44 | every June date is shown as Ramadan with the Ramadan entry |
| LessonDetail.StripMarkers | revert-companion/src/screens/LessonDetailScreen.tsx:74 | `slice(2, -2)` drops two characters at each end of a marked piece (wrapping it again gives it back), and is empty below four characters |
| LessonDetail.ClassifyLine | revert-companion/src/screens/LessonDetailScreen.tsx:87-102 | a line is a bullet item exactly when its trimmed form starts with '•', with the first '•' removed and the rest trimmed (so shorter); any other line is kept as it is |
| LessonDetail.BulletItemOf | revert-companion/src/screens/LessonDetailScreen.tsx:88-96 | a bullet line's text is the line without its first '•', trimmed, and shorter than the line |
| LessonDetail.ClassifyPiece | revert-companion/src/screens/LessonDetailScreen.tsx:71-114 | a heading exactly when the piece starts and ends with `**`; otherwise a bullet list exactly when it contains '•', one classified line per `\n` line; otherwise a paragraph with the piece's text |
| LessonDetail.RenderContent | revert-companion/src/screens/LessonDetailScreen.tsx:66-115 | one block per blank-line separated piece, in order |
| LessonDetail.ParagraphsRejoin | revert-companion/src/screens/LessonDetailScreen.tsx:69-113 | when every block is a paragraph, joining their texts with blank lines gives the content back |
| LessonDetail.NavigateToLesson | revert-companion/src/screens/LessonDetailScreen.tsx:57-64 | navigates exactly when a module is open and 0 ≤ index < its lesson count, to that module and the lesson at the index |
| LessonDetail.PreviousDisabled | revert-companion/src/screens/LessonDetailScreen.tsx:184 | Previous is disabled on the first lesson; no contract of its own, `ButtonsMatchNavigation` relates it to navigation |
| LessonDetail.NextDisabled | revert-companion/src/screens/LessonDetailScreen.tsx:220 | Next is disabled on the last lesson; no contract of its own, `ButtonsMatchNavigation` relates it to navigation |
| LessonDetail.ButtonsMatchNavigation | revert-companion/src/screens/LessonDetailScreen.tsx:183-220 | on a lesson of the module, Previous is enabled exactly when index−1 navigates and Next exactly when index+1 does |
| LessonDetail.FirstIndexOf | revert-companion/src/screens/LessonDetailScreen.tsx:38-41 | the first position holding the id, with no earlier one holding it, or -1 exactly when the id is absent |
| LessonDetail.FindModuleIndex | revert-companion/src/screens/LessonDetailScreen.tsx:38 | the position of the first module with the id, or -1 exactly when there is none |
| LessonDetail.FindLessonIndex | revert-companion/src/screens/LessonDetailScreen.tsx:41 | the position of the first lesson with the id, or -1 exactly when there is none |
| LessonDetail.LessonDetailScreen.constructor | revert-companion/src/screens/LessonDetailScreen.tsx:29-31 | no module, no lesson, index 0 |
| LessonDetail.LessonDetailScreen.LoadLesson | revert-companion/src/screens/LessonDetailScreen.tsx:37-47 | a found module is opened even when the lesson is missing; lesson and index change only when the lesson is found, to its first occurrence |
| LessonDetail.LessonDetailScreen.MarkComplete | revert-companion/src/screens/LessonDetailScreen.tsx:49-55 | for a shown lesson not yet completed: the store records it, the module's own lesson object becomes completed and a fresh copy is shown; otherwise the shown lesson and the store stay as they were; either way the lesson that was shown ends completed, so a second call is a no-op |
| ZakatCalculator.With | revert-companion/src/components/ZakatCalculator.tsx:73-76 | the named field gets the value and every other field keeps its text |
| ZakatCalculator.Amount | revert-companion/src/components/ZakatCalculator.tsx:32-37 | a field that does not parse counts 0; one that parses counts its number |
| ZakatCalculator.TotalWealth | revert-companion/src/components/ZakatCalculator.tsx:24-42 | for non-negative amounts the weighted sum is non-negative |
| ZakatCalculator.TotalOf | revert-companion/src/components/ZakatCalculator.tsx:32-42 | the weighted total the six fields describe is non-negative when every field reads as a non-negative amount |
| ZakatCalculator.NisabThreshold | revert-companion/src/components/ZakatCalculator.tsx:28-47 | the smaller of 87.48 × 70 and 612.36 × 0.8, which is the silver value 489.888 |
| ZakatCalculator.ZakatDue | revert-companion/src/components/ZakatCalculator.tsx:49-54 | nothing below the threshold; at or above it, 2.5 % of the total |
| ZakatCalculator.ZakatBounds | revert-companion/src/components/ZakatCalculator.tsx:49-54 | for a non-negative total, 0 ≤ zakat ≤ total |
| ZakatCalculator.ZakatMonotone | revert-companion/src/components/ZakatCalculator.tsx:49-54 | more wealth never means less zakat |
| ZakatCalculator.ZakatOnWholeTotal | revert-companion/src/components/ZakatCalculator.tsx:52-53 | above the threshold zakat is 2.5 % of the excess plus 2.5 % of the threshold; at the threshold it jumps from 0 to 12.2472 |
| ZakatCalculator.EmptyFieldsOweNothing | revert-companion/src/components/ZakatCalculator.tsx:32-37 | with every field empty (read as NaN) the total and the zakat are 0 |
| ZakatCalculator.ZakatCalculatorCard.constructor | revert-companion/src/components/ZakatCalculator.tsx:11-21 | empty fields, no amount, result hidden |
| ZakatCalculator.ZakatCalculatorCard.CalculateZakat | revert-companion/src/components/ZakatCalculator.tsx:31-57 | the amount becomes the zakat due on the fields' total, the result is shown and the fields are untouched |
| ZakatCalculator.ZakatCalculatorCard.ResetCalculator | revert-companion/src/components/ZakatCalculator.tsx:59-70 | all six fields empty, amount null, result hidden |
| ZakatCalculator.ZakatCalculatorCard.UpdateValue | revert-companion/src/components/ZakatCalculator.tsx:72-77 | only the named field changes; the amount and its visibility stay |

## Left out

- The numeric astronomy is left out. `Math.sin`, `cos`, `tan`, `asin`, `acos`, `atan` and `atan2` are abstract, and only the ranges of `acos` and `atan2` are assumed. Nothing is proved about particular times or bearings, nor about how one method's times compare with another's, because that needs monotonicity of the trigonometric functions.
- Floating point is modelled as exact `real`. IEEE-754 rounding, `Infinity` and `NaN` are absent. A zero divisor yields 0 (`Quot`) where JavaScript gives an infinity or NaN: in the hour-angle formula at the poles, and in the Asr formula's `1 / (shadowRatio + tan(...))` when the tangent is −1.
- `parseFloat` is a parameter. The model does not say which strings it reads.
- All I/O is outside the model:
  - AsyncStorage reads and writes, including JSON parsing and the `try`/`catch` fallbacks; a failed read looks like an empty store.
  - `saveUserPreferences`, `getUserLocation`, `saveUserLocation` and `clearAllData`.
  - location, notifications, sensors, sharing and navigation itself; a navigation is the route it would be given.
- The clock is outside the model. `getNextPrayer` takes the current `"HH:mm"` as a parameter. `recordPrayer` takes today's date, which the app derives from the UTC ISO date while callers pass local dates; the two stay independent inputs.
- `getCurrentStreak` returns the stored streak unchanged and has no member of its own.
- `renderContent`'s `if (!lesson) return null` has no member of its own: `RenderContent` is the rendering of a loaded lesson's content.
- React's asynchronous state setters become direct field assignments, so a setter's effect is visible at once.
- Screens, styles, the lesson catalogue's contents, the notification scheduler, the prayer-tracker card and every other file of the app are not part of this model.
- ProgressTracker.GetTotalPrayers: the reduce over `Object.values` visits days in the object's key order. The model visits them in an arbitrary order, and proves that the order does not change the sum.
- ZakatCalculator.ZakatDue: its contract restates the rule as written; the properties the card promises are in `ZakatBounds`, `ZakatMonotone` and `ZakatOnWholeTotal`.
- ProgressTracker.PushAchievements: the pushes go to three runs (streak goals, other goals, locked placeholders) that are joined in push order, not to one growing array; the final list is the same, but the intermediate states of the single array are not modelled.
- PrayerCalculations.CalculatePrayerTimes: the default argument `method = CalculationMethod.MWL` is not modelled; the method is always passed explicitly, as both callers (HomeScreen and PrayerTimesScreen) do.
- PrayerCalculations.JsRealRem: its range is proved only for the divisor 360 and dividends in [180, 540], through `NormaliseBearingRange`; the general bounds of JavaScript's `%` on numbers are not stated.
