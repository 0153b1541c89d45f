/**
 * The prayer-times card: 24-hour "HH:MM" times shown on a 12-hour clock,
 * and the "time remaining" text its one-second timer refreshes.
 */
module PrayerTimesView {
  import opened Wrappers
  import opened Strings
  import opened Numerals
  import PrayerService

  const HOUR_MS: int := 3600000
  const MINUTE_MS: int := 60000
  const PASSED_TEXT: string := "Prayer time has passed"

  /** The hour shown on a 12-hour clock: `hour % 12 || 12`. */
  function DisplayHour(hour: int): (d: int)
    ensures hour >= 0 ==> 1 <= d <= 12 && d % 12 == hour % 12
    ensures 1 <= hour <= 12 ==> d == hour
    ensures 13 <= hour <= 23 ==> d == hour - 12
  {
    var r := JsRem12(hour);
    if r == 0 then 12 else r
  }

  function Suffix(hour: int): (s: string)
    ensures s == "PM" <==> hour >= 12
    ensures s == "AM" <==> hour < 12
  {
    if hour >= 12 then "PM" else "AM"
  }

  /**
   * `formatTime`: "--:--" for a missing or empty time; otherwise the hour
   * field read by `parseInt` (`None` is `NaN`, which shows as "12 AM"), the
   * minutes field copied as it is ("undefined" when there is no colon).
   */
  function FormatTime(time: Option<string>): (r: string)
    ensures time.None? || time.value == "" ==> r == "--:--"
  {
    if time.None? || time.value == "" then "--:--"
    else
      var t := time.value;
      var hours := BeforeFirst(t, ':');
      var minutes := match AfterFirst(t, ':')
        case None => "undefined"
        case Some(rest) => BeforeFirst(rest, ':');
      var hour := ParseIntPrefix(hours);
      var ampm := if hour.Some? then Suffix(hour.value) else "AM";
      var displayHour := if hour.Some? then IntToString(DisplayHour(hour.value)) else "12";
      displayHour + ":" + minutes + " " + ampm
  }

  /**
   * A time "HH:MM" whose hour field is digits: the hour on a 12-hour clock,
   * the minutes unchanged, and "PM" exactly from 12 on.
   */
  lemma {:induction false} FormatClockTime(hh: string, mm: string)
    requires |hh| >= 1 && AllDigits(hh) && ':' !in mm
    ensures FormatTime(Some(hh + ":" + mm))
         == IntToString(DisplayHour(DigitsValue(hh))) + ":" + mm + " " + Suffix(DigitsValue(hh))
  {
    var t := hh + ":" + mm;
    assert ':' !in hh by {
      assert forall i :: 0 <= i < |hh| ==> IsDigit(hh[i]);
    }
    assert t == hh + [':'] + mm;
    BeforeFirstOfJoin(hh, ':', mm);
    assert AfterFirst(t, ':') == Some(mm);
    BeforeFirstIdentity(mm, ':');
    LeadingDigitsAll(hh);
    assert IsDigit(hh[0]);
  }

  /** The fallback schedule's Maghrib time shows as "6:30 PM". */
  lemma FallbackMaghribShown(localDate: string)
    ensures FormatTime(Some(PrayerService.FallbackPrayerTimes(localDate).maghrib)) == "6:30 PM"
  {
    var hh, mm := "18", "30";
    assert PrayerService.FallbackPrayerTimes(localDate).maghrib == hh + ":" + mm;
    EighteenReads();
    FormatClockTime(hh, mm);
    SixShows();
  }

  /** The hour field of the fallback Maghrib reads as 18. */
  lemma EighteenReads()
    ensures AllDigits("18") && DigitsValue("18") == 18
  {
    DigitsValueTwo("18");
  }

  /** Hour 18 with minutes "30" shows as "6:30 PM". */
  lemma SixShows()
    ensures IntToString(DisplayHour(18)) + ":" + "30" + " " + Suffix(18) == "6:30 PM"
  {
    assert DisplayHour(18) == 6;
    assert IntToString(6) == [DigitChar(6)];
  }

  /**
   * The remaining-time text for `diff = maghrib - now` (`None` for `NaN`):
   * whole hours and the leftover whole minutes while Maghrib is ahead,
   * the "passed" text otherwise.
   */
  function CountdownText(diff: Option<int>): (text: string)
    ensures diff.None? || diff.value <= 0 ==> text == PASSED_TEXT
  {
    if diff.Some? && diff.value > 0 then
      var hours := diff.value / HOUR_MS;
      var minutes := (diff.value % HOUR_MS) / MINUTE_MS;
      IntToString(hours) + "h " + IntToString(minutes) + "m"
    else PASSED_TEXT
  }

  /**
   * One tick of the card's timer: `None` when the schedule has no Maghrib
   * time (the text is left as it was), else the new text.
   */
  function CountdownUpdate(maghrib: Option<string>, dayStartMs: int, now: int): (r: Option<string>)
    ensures r.None? <==> maghrib.None? || maghrib.value == ""
    ensures r.Some? && PrayerService.MaghribInstant(maghrib.value, dayStartMs).None? ==> r.value == PASSED_TEXT
    ensures r.Some? && PrayerService.MaghribInstant(maghrib.value, dayStartMs).Some? ==>
      r.value == CountdownText(Some(PrayerService.MaghribInstant(maghrib.value, dayStartMs).value - now))
  {
    if maghrib.None? || maghrib.value == "" then None
    else
      var diff := match PrayerService.MaghribInstant(maghrib.value, dayStartMs)
        case None => None
        case Some(target) => Some(target - now);
      Some(CountdownText(diff))
  }

  /**
   * While Maghrib is ahead, the card shows the same hours and minutes as
   * the service's countdown, so its minutes lie in 0..59.
   */
  lemma CountdownAgreesWithService(diff: int)
    requires diff > 0
    ensures var c := PrayerService.TimeUntil(diff);
      && CountdownText(Some(diff)) == IntToString(c.hours) + "h " + IntToString(c.minutes) + "m"
      && 0 <= c.minutes < 60
  {
    var c := PrayerService.TimeUntil(diff);
    var r := diff - c.totalMinutes * MINUTE_MS;
    assert 0 <= r < MINUTE_MS;
    assert diff == c.hours * HOUR_MS + c.minutes * MINUTE_MS + r;
    assert 0 <= c.minutes * MINUTE_MS + r < HOUR_MS;
    assert diff / HOUR_MS == c.hours;
    assert diff % HOUR_MS == c.minutes * MINUTE_MS + r;
    assert (diff % HOUR_MS) / MINUTE_MS == c.minutes;
  }
}
