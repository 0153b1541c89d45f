/**
 * The prayer-time service: the fallback schedule, trimming the API's time
 * strings, and the minutes left until Maghrib.
 *
 * The wall clock is a parameter: `now` is the current instant in
 * milliseconds and `dayStartMs` the instant of local midnight of the same
 * day, so that "HH:MM today" is `dayStartMs + (HH * 60 + MM) * 60000`.
 */
module PrayerService {
  import opened Wrappers
  import opened Strings
  import opened Numerals

  const MS_PER_MINUTE: int := 60000

  /** The six daily prayer times as "HH:MM" strings, and the date they are for. */
  datatype PrayerTimes = PrayerTimes(
    fajr: string, sunrise: string, dhuhr: string,
    asr: string, maghrib: string, isha: string,
    date: string)

  /** The timings the prayer-time API returns, possibly followed by a zone suffix ("18:05 (CEST)"). */
  datatype ApiTimings = ApiTimings(
    fajr: string, sunrise: string, dhuhr: string,
    asr: string, maghrib: string, isha: string)

  datatype ApiResponse = ApiResponse(timings: ApiTimings, readableDate: string)

  /** Time left until Maghrib, as `getTimeUntilMaghrib` returns it. */
  datatype Countdown = Countdown(hours: int, minutes: int, totalMinutes: int)

  /** `formatTime`: drop everything from the first space on. */
  function FormatTime(timeString: string): (r: string)
    ensures ' ' !in r
    ensures IsPrefix(r, timeString)
    ensures |r| == |timeString| || timeString[|r|] == ' '
  {
    BeforeFirst(timeString, ' ')
  }

  lemma FormatTimeIdempotent(timeString: string)
    ensures FormatTime(FormatTime(timeString)) == FormatTime(timeString)
  {
    BeforeFirstIdempotent(timeString, ' ');
  }

  lemma FormatTimeIdentity(timeString: string)
    requires ' ' !in timeString
    ensures FormatTime(timeString) == timeString
  {
    BeforeFirstIdentity(timeString, ' ');
  }

  /** An API time with a zone suffix is cut back to the clock time. */
  lemma FormatTimeDropsSuffix(clock: string, suffix: string)
    requires ' ' !in clock
    ensures FormatTime(clock + " " + suffix) == clock
  {
    BeforeFirstOfJoin(clock, ' ', suffix);
  }

  /** The schedule used when the prayer-time API cannot be reached. */
  function FallbackPrayerTimes(localDate: string): (p: PrayerTimes)
    ensures p.date == localDate
  {
    PrayerTimes("05:30", "06:45", "12:30", "15:45", "18:30", "19:45", localDate)
  }

  /**
   * `getPrayerTimes`: the API's timings trimmed by `FormatTime`, or the
   * fallback schedule when the request failed (`None`).
   */
  function GetPrayerTimes(response: Option<ApiResponse>, localDate: string): (p: PrayerTimes)
    ensures response.None? ==> p == FallbackPrayerTimes(localDate)
    ensures response.Some? ==> p.date == response.value.readableDate
    ensures response.Some? ==>
      var t := response.value.timings;
      && p.fajr == FormatTime(t.fajr) && p.sunrise == FormatTime(t.sunrise)
      && p.dhuhr == FormatTime(t.dhuhr) && p.asr == FormatTime(t.asr)
      && p.maghrib == FormatTime(t.maghrib) && p.isha == FormatTime(t.isha)
  {
    match response
    case None => FallbackPrayerTimes(localDate)
    case Some(r) =>
      PrayerTimes(
        FormatTime(r.timings.fajr), FormatTime(r.timings.sunrise),
        FormatTime(r.timings.dhuhr), FormatTime(r.timings.asr),
        FormatTime(r.timings.maghrib), FormatTime(r.timings.isha),
        r.readableDate)
  }

  /**
   * A successful response whose Maghrib carries a timezone suffix, such as
   * "18:30 (CEST)", yields the bare clock time, which the countdown then reads.
   */
  lemma ApiMaghribTrimmed(response: ApiResponse, clock: string, suffix: string, localDate: string)
    requires ' ' !in clock && response.timings.maghrib == clock + " " + suffix
    ensures GetPrayerTimes(Some(response), localDate).maghrib == clock
  {
    FormatTimeDropsSuffix(clock, suffix);
  }

  /**
   * Minutes after midnight of an "H:MM" or "HH:MM" time of day; `None`
   * stands for a time the date parser rejects (an Invalid Date).
   */
  function ClockMinutes(t: string): (r: Option<int>)
    ensures r.Some? ==> 0 <= r.value < 24 * 60
  {
    var hh := BeforeFirst(t, ':');
    match AfterFirst(t, ':')
    case None => None
    case Some(mm) =>
      if 1 <= |hh| <= 2 && AllDigits(hh) && |mm| == 2 && AllDigits(mm)
         && DigitsValue(hh) < 24 && DigitsValue(mm) < 60
      then Some(DigitsValue(hh) * 60 + DigitsValue(mm))
      else None
  }

  /** The fallback schedule reads as the intended clock times, in increasing order. */
  lemma FallbackScheduleIncreasing(localDate: string)
    ensures var p := FallbackPrayerTimes(localDate);
      && ClockMinutes(p.fajr) == Some(5 * 60 + 30)
      && ClockMinutes(p.sunrise) == Some(6 * 60 + 45)
      && ClockMinutes(p.dhuhr) == Some(12 * 60 + 30)
      && ClockMinutes(p.asr) == Some(15 * 60 + 45)
      && ClockMinutes(p.maghrib) == Some(18 * 60 + 30)
      && ClockMinutes(p.isha) == Some(19 * 60 + 45)
  {
    assert TwoDigitValue('0', '5') == 5 && TwoDigitValue('3', '0') == 30;
    ClockAt("05:30");
    assert TwoDigitValue('0', '6') == 6 && TwoDigitValue('4', '5') == 45;
    ClockAt("06:45");
    assert TwoDigitValue('1', '2') == 12 && TwoDigitValue('3', '0') == 30;
    ClockAt("12:30");
    assert TwoDigitValue('1', '5') == 15 && TwoDigitValue('4', '5') == 45;
    ClockAt("15:45");
    assert TwoDigitValue('1', '8') == 18 && TwoDigitValue('3', '0') == 30;
    ClockAt("18:30");
    assert TwoDigitValue('1', '9') == 19 && TwoDigitValue('4', '5') == 45;
    ClockAt("19:45");
  }

  /** The value of a two-digit field. */
  function TwoDigitValue(a: char, b: char): nat
    requires IsDigit(a) && IsDigit(b)
  {
    DigitValue(a) * 10 + DigitValue(b)
  }

  /** A five-character "HH:MM" string reads as HH * 60 + MM. */
  lemma ClockAt(t: string)
    requires |t| == 5 && t[2] == ':'
    requires IsDigit(t[0]) && IsDigit(t[1]) && IsDigit(t[3]) && IsDigit(t[4])
    requires TwoDigitValue(t[0], t[1]) < 24 && TwoDigitValue(t[3], t[4]) < 60
    ensures ClockMinutes(t) == Some(TwoDigitValue(t[0], t[1]) * 60 + TwoDigitValue(t[3], t[4]))
  {
    var hh, mm := t[..2], t[3..];
    assert t == hh + [':'] + mm;
    assert ':' !in hh;
    BeforeFirstOfJoin(hh, ':', mm);
    DigitsValueTwo(hh);
    DigitsValueTwo(mm);
  }

  /** The instant of `maghribTime` today, or `None` for an Invalid Date. */
  function MaghribInstant(maghribTime: string, dayStartMs: int): (r: Option<int>)
    ensures r.Some? <==> ClockMinutes(maghribTime).Some?
    ensures r.Some? ==> dayStartMs <= r.value < dayStartMs + 24 * 60 * MS_PER_MINUTE
  {
    match ClockMinutes(maghribTime)
    case None => None
    case Some(m) => Some(dayStartMs + m * MS_PER_MINUTE)
  }

  /**
   * The countdown for a millisecond difference `diff = maghrib - now`: all
   * zero when Maghrib is not in the future, otherwise the whole minutes
   * left, rounded down, split into hours and minutes.
   */
  function TimeUntil(diff: int): (c: Countdown)
    ensures diff <= 0 ==> c == Countdown(0, 0, 0)
    ensures diff > 0 ==> c.totalMinutes * MS_PER_MINUTE <= diff < (c.totalMinutes + 1) * MS_PER_MINUTE
    ensures c.hours * 60 + c.minutes == c.totalMinutes
    ensures 0 <= c.minutes < 60 && 0 <= c.hours
  {
    if diff <= 0 then Countdown(0, 0, 0)
    else
      var totalMinutes := diff / MS_PER_MINUTE;
      Countdown(totalMinutes / 60, totalMinutes % 60, totalMinutes)
  }

  /**
   * `getTimeUntilMaghrib(maghribTime)` at instant `now`; `None` stands for
   * the object of `NaN`s an unparsable time produces.
   */
  function GetTimeUntilMaghrib(maghribTime: string, dayStartMs: int, now: int): (r: Option<Countdown>)
    ensures r.Some? <==> MaghribInstant(maghribTime, dayStartMs).Some?
    ensures r.Some? ==> r.value == TimeUntil(MaghribInstant(maghribTime, dayStartMs).value - now)
  {
    match MaghribInstant(maghribTime, dayStartMs)
    case None => None
    case Some(target) => Some(TimeUntil(target - now))
  }

  /** A zero `totalMinutes` does not tell "passed" from "less than a minute away". */
  lemma ZeroTotalIsAmbiguous(diff: int)
    ensures TimeUntil(diff).totalMinutes == 0 <==> diff < MS_PER_MINUTE
  {
  }

  /** With Maghrib at 18:30: 17:50:00 gives 40 minutes, 19:00:00 gives the zero result. */
  lemma MaghribExamples(dayStartMs: int)
    ensures GetTimeUntilMaghrib("18:30", dayStartMs, dayStartMs + (17 * 60 + 50) * MS_PER_MINUTE)
            == Some(Countdown(0, 40, 40))
    ensures GetTimeUntilMaghrib("18:30", dayStartMs, dayStartMs + 19 * 60 * MS_PER_MINUTE)
            == Some(Countdown(0, 0, 0))
  {
    ClockAt("18:30");
  }
}
