/**
 * The alert scheduler: two periodic checks (Maghrib proximity every minute,
 * rain every five minutes), settings read back from `localStorage` with
 * defaults, and a one-hour cooldown between rain alerts.
 *
 * Timers are opaque ids in a table of live intervals; a timer firing is an
 * explicit call to `Tick` with the current instant supplied. The weather
 * request a rain check makes is a parameter holding its outcome.
 */
module NotificationService {
  import opened Wrappers
  import opened Strings
  import opened Numerals
  import opened Json
  import opened Storage
  import opened Locations
  import opened PrayerService
  import opened WeatherService

  const ALERT_TIME_KEY: string := "setting_alertTime"
  const RAIN_ALERT_KEY: string := "setting_rainAlert"
  const MAGHRIB_ALERT_KEY: string := "setting_maghribAlert"
  const LAST_RAIN_KEY: string := "lastRainNotification"
  const DEFAULT_ALERT_TIME: int := 15
  const RAIN_COOLDOWN_MS: int := 3600000
  const PRAYER_CHECK_PERIOD_MS: int := 60000
  const WEATHER_CHECK_PERIOD_MS: int := 300000
  const ALERT_ICON: string := "/vite.svg"

  type TimerId = nat

  /** What a periodic timer runs, with the arguments it captured. */
  datatype Task =
    | PrayerCheck(prayerTimes: PrayerTimes)
    | WeatherCheck(latitude: real, longitude: real)

  datatype Interval = Interval(task: Task, periodMs: int)

  datatype Notice = Notice(title: string, body: string, icon: string)

  const PRAYER_BODY_HEAD: string := "Maghrib prayer is in "
  const PRAYER_BODY_TAIL: string := " minutes. Time to prepare and make duʿā."

  /** The Maghrib alert for a lead of `alertTime` minutes; its body names the lead. */
  function PrayerNotice(alertTime: int): (n: Notice)
    ensures n.title == "Maghrib Prayer Alert" && n.icon == ALERT_ICON
    ensures Contains(n.body, IntToString(alertTime))
  {
    var lead := IntToString(alertTime);
    var body := PRAYER_BODY_HEAD + lead + PRAYER_BODY_TAIL;
    assert body[|PRAYER_BODY_HEAD|..|PRAYER_BODY_HEAD| + |lead|] == lead;
    ContainsAt(body, lead, |PRAYER_BODY_HEAD|);
    Notice("Maghrib Prayer Alert", body, ALERT_ICON)
  }

  const RAIN_NOTICE: Notice :=
    Notice("Rain Alert - Time for Duʿā",
           "It's raining in your area. A blessed time to make duʿā and seek Allah's mercy.",
           ALERT_ICON)

  /**
   * `stored ? JSON.parse(stored) : default` on what `getItem` returned: a
   * missing or empty entry gives the default, any other entry its parse;
   * `None` stands for `JSON.parse` throwing.
   */
  function StoredSetting(stored: Option<string>, default: Json): (r: Option<Json>)
    ensures stored.None? || stored.value == "" ==> r == Some(default)
    ensures stored.Some? && stored.value != "" ==> r == Parse(stored.value)
  {
    if stored.None? || stored.value == "" then Some(default) else Parse(stored.value)
  }

  /** `getAlertTimeSetting`: the lead time in minutes, 15 when not stored. */
  function AlertTimeSetting(store: map<string, string>): (r: Option<Json>)
    ensures ALERT_TIME_KEY !in store || store[ALERT_TIME_KEY] == "" ==> r == Some(JInt(DEFAULT_ALERT_TIME))
  {
    StoredSetting(Lookup(store, ALERT_TIME_KEY), JInt(DEFAULT_ALERT_TIME))
  }

  /** `getRainAlertSetting`: the rain toggle, on when not stored. */
  function RainAlertSetting(store: map<string, string>): (r: Option<Json>)
    ensures RAIN_ALERT_KEY !in store || store[RAIN_ALERT_KEY] == "" ==> r == Some(JBool(true))
  {
    StoredSetting(Lookup(store, RAIN_ALERT_KEY), JBool(true))
  }

  /**
   * `if (!rainAlertEnabled) return;` lets the check go on exactly when the
   * setting is truthy; a throwing read stops it too.
   */
  predicate RainAlertEnabled(store: map<string, string>): (enabled: bool)
    ensures RAIN_ALERT_KEY !in store || store[RAIN_ALERT_KEY] == "" ==> enabled
    ensures enabled ==> RainAlertSetting(store).Some?
  {
    match RainAlertSetting(store)
    case None => false
    case Some(v) => Truthy(v)
  }

  /**
   * `wasRecentlyNotifiedAboutRain` on what `getItem` returned: false with no
   * stored timestamp (or one `parseInt` cannot read, since comparisons with
   * `NaN` are false), otherwise whether less than an hour has passed since it.
   */
  predicate WasRecentlyNotifiedAboutRain(lastNotification: Option<string>, now: int): (recent: bool)
    ensures lastNotification.None? || lastNotification.value == "" ==> !recent
    ensures recent <==>
      && lastNotification.Some? && ParseIntPrefix(lastNotification.value).Some?
      && now - ParseIntPrefix(lastNotification.value).value < RAIN_COOLDOWN_MS
  {
    if lastNotification.None? || lastNotification.value == "" then false
    else
      match ParseIntPrefix(lastNotification.value)
      case None => false
      case Some(last) => now - last < RAIN_COOLDOWN_MS
  }

  /**
   * `checkPrayerTimeAlerts` at instant `now`: the notification it sends, if
   * any. Exactly when the whole minutes left until Maghrib equal the stored
   * lead time (`===`, so only a stored integer can match).
   */
  function PrayerAlert(store: map<string, string>, prayerTimes: PrayerTimes, dayStartMs: int, now: int): (r: Option<Notice>)
    ensures r.Some? <==>
      && AlertTimeSetting(store).Some? && AlertTimeSetting(store).value.JInt?
      && GetTimeUntilMaghrib(prayerTimes.maghrib, dayStartMs, now).Some?
      && GetTimeUntilMaghrib(prayerTimes.maghrib, dayStartMs, now).value.totalMinutes
         == AlertTimeSetting(store).value.i
    ensures r.Some? ==> r.value == PrayerNotice(AlertTimeSetting(store).value.i)
  {
    match AlertTimeSetting(store)
    case Some(JInt(alertTime)) =>
      (match GetTimeUntilMaghrib(prayerTimes.maghrib, dayStartMs, now)
       case Some(timeToMaghrib) =>
         if timeToMaghrib.totalMinutes == alertTime then Some(PrayerNotice(alertTime)) else None
       case None => None)
    case _ => None
  }

  /**
   * Whether a rain check at `now` notifies: enabled, raining, and out of
   * cooldown. A failed weather request never notifies.
   */
  predicate RainAlertDue(store: map<string, string>, response: Option<OpenMeteoData>, now: int): (due: bool)
    ensures due ==> RainAlertEnabled(store) && CheckForRainAlerts(response)
    ensures due ==> response.Some?
  {
    RainAlertEnabled(store) && CheckForRainAlerts(response)
    && !WasRecentlyNotifiedAboutRain(Lookup(store, LAST_RAIN_KEY), now)
  }

  /** The store after a rain check: the timestamp is written only when the check notifies. */
  function StoreAfterRainCheck(store: map<string, string>, response: Option<OpenMeteoData>, now: int): (s: map<string, string>)
    ensures !RainAlertDue(store, response, now) ==> s == store
    ensures RainAlertDue(store, response, now) ==> s == store[LAST_RAIN_KEY := IntToString(now)]
  {
    if RainAlertDue(store, response, now) then store[LAST_RAIN_KEY := IntToString(now)] else store
  }

  ghost function Elems(s: seq<TimerId>): set<TimerId> {
    set id | id in s
  }

  /** The notification sink: what the browser shows, gated on the permission state. */
  class NotificationSink {
    var permission: string
    var shown: seq<Notice>

    constructor (permission: string)
      ensures this.permission == permission && shown == []
    {
      this.permission := permission;
      shown := [];
    }

    /** `sendNotification`: shown only when permission is "granted". */
    method SendNotification(title: string, body: string, icon: string)
      modifies this
      ensures permission == old(permission)
      ensures shown == old(shown) + (if permission == "granted" then [Notice(title, body, icon)] else [])
    {
      if permission == "granted" {
        shown := shown + [Notice(title, body, icon)];
      }
    }
  }

  class NotificationService {
    /** The handles this service holds (`NotificationService.intervals`). */
    var intervals: seq<TimerId>
    /** The live interval timers, by handle. */
    var timers: map<TimerId, Interval>
    var nextId: TimerId
    const storage: LocalStorage
    const sink: NotificationSink

    /** Every live timer is one the service holds, each held once, and new handles are fresh. */
    ghost predicate Valid()
      reads this
    {
      && timers.Keys == Elems(intervals)
      && (forall i, j :: 0 <= i < j < |intervals| ==> intervals[i] != intervals[j])
      && (forall id :: id in timers ==> id < nextId)
    }

    constructor (storage: LocalStorage, sink: NotificationSink)
      ensures Valid()
      ensures this.storage == storage && this.sink == sink
      ensures intervals == [] && timers == map[]
    {
      this.storage := storage;
      this.sink := sink;
      intervals := [];
      timers := map[];
      nextId := 0;
    }

    /** `this.intervals.forEach(interval => clearInterval(interval))`. */
    method ClearIntervals()
      requires Valid()
      modifies this
      ensures intervals == old(intervals) && nextId == old(nextId)
      ensures timers == map[]
    {
      var i := 0;
      while i < |intervals|
        invariant intervals == old(intervals) && nextId == old(nextId)
        invariant 0 <= i <= |intervals|
        invariant timers == old(timers) - Elems(intervals[..i])
      {
        assert intervals[..i + 1] == intervals[..i] + [intervals[i]];
        assert Elems(intervals[..i + 1]) == Elems(intervals[..i]) + {intervals[i]};
        timers := timers - {intervals[i]};
        i := i + 1;
      }
      assert intervals[..i] == intervals;
      assert timers.Keys == {};
    }

    /** `setInterval`: start a timer under a handle no live timer has, and return it. */
    method SetInterval(task: Task, periodMs: int) returns (id: TimerId)
      requires forall t :: t in timers ==> t < nextId
      modifies this
      ensures id !in old(timers)
      ensures id == old(nextId) && nextId == old(nextId) + 1
      ensures timers == old(timers)[id := Interval(task, periodMs)]
      ensures intervals == old(intervals)
    {
      id := nextId;
      timers := timers[id := Interval(task, periodMs)];
      nextId := nextId + 1;
    }

    /**
     * `setupPeriodicChecks`: cancel every held timer, then, when both a
     * location and a schedule are given, start the minute-long prayer check
     * and the five-minute weather check and hold exactly those two.
     */
    method SetupPeriodicChecks(location: Option<Location>, prayerTimes: Option<PrayerTimes>)
      requires Valid()
      modifies this
      ensures Valid()
      ensures forall id :: id in old(intervals) ==> id !in timers
      ensures location.None? || prayerTimes.None? ==> intervals == [] && timers == map[]
      ensures location.Some? && prayerTimes.Some? ==>
        && |intervals| == 2 && |timers| == 2
        && intervals[0] !in old(timers) && intervals[1] !in old(timers)
        && timers[intervals[0]] == Interval(PrayerCheck(prayerTimes.value), PRAYER_CHECK_PERIOD_MS)
        && timers[intervals[1]] == Interval(WeatherCheck(location.value.lat, location.value.lng), WEATHER_CHECK_PERIOD_MS)
    {
      ghost var held := intervals;
      forall id | id in held
        ensures id in timers && id < nextId
      {
        assert id in Elems(held);
      }
      ClearIntervals();
      intervals := [];
      if location.None? || prayerTimes.None? {
        return;
      }
      var prayerCheckInterval := SetInterval(PrayerCheck(prayerTimes.value), PRAYER_CHECK_PERIOD_MS);
      var weatherCheckInterval := SetInterval(WeatherCheck(location.value.lat, location.value.lng), WEATHER_CHECK_PERIOD_MS);
      intervals := intervals + [prayerCheckInterval, weatherCheckInterval];
      assert timers.Keys == {prayerCheckInterval, weatherCheckInterval};
    }

    /** `cleanup`: cancel every held timer and hold none; a second call changes nothing. */
    method Cleanup()
      requires Valid()
      modifies this
      ensures Valid()
      ensures forall id :: id in old(intervals) ==> id !in timers
      ensures intervals == [] && timers == map[] && nextId == old(nextId)
      ensures old(intervals) == [] ==> timers == old(timers)
    {
      ClearIntervals();
      intervals := [];
    }

    /**
     * `checkPrayerTimeAlerts` at instant `now`. The `maghribAlert` toggle is
     * not read: only the lead time and the countdown decide.
     */
    method CheckPrayerTimeAlerts(prayerTimes: PrayerTimes, dayStartMs: int, now: int)
      modifies sink
      ensures sink.permission == old(sink.permission)
      ensures var alert := PrayerAlert(storage.entries, prayerTimes, dayStartMs, now);
        sink.shown == old(sink.shown)
          + (if alert.Some? && sink.permission == "granted" then [alert.value] else [])
    {
      var alertTime := StoredSetting(storage.GetItem(ALERT_TIME_KEY), JInt(DEFAULT_ALERT_TIME));
      var timeToMaghrib := GetTimeUntilMaghrib(prayerTimes.maghrib, dayStartMs, now);
      if alertTime.Some? && alertTime.value.JInt? && timeToMaghrib.Some?
         && timeToMaghrib.value.totalMinutes == alertTime.value.i
      {
        var notice := PrayerNotice(alertTime.value.i);
        sink.SendNotification(notice.title, notice.body, notice.icon);
      }
    }

    /** `markRainNotificationSent`: store `now` as the last rain alert. */
    method MarkRainNotificationSent(now: int)
      modifies storage
      ensures storage.entries == old(storage.entries)[LAST_RAIN_KEY := IntToString(now)]
    {
      storage.SetItem(LAST_RAIN_KEY, IntToString(now));
    }

    /**
     * `checkWeatherAlerts` at instant `now`, where `response` is what the
     * weather request for (`latitude`, `longitude`) returned. The timestamp
     * is written whenever the alert is due, whether or not the permission
     * lets the sink show it.
     */
    method CheckWeatherAlerts(latitude: real, longitude: real, response: Option<OpenMeteoData>, now: int)
      modifies storage, sink
      ensures sink.permission == old(sink.permission)
      ensures storage.entries == StoreAfterRainCheck(old(storage.entries), response, now)
      ensures sink.shown == old(sink.shown)
        + (if RainAlertDue(old(storage.entries), response, now) && sink.permission == "granted" then [RAIN_NOTICE] else [])
    {
      var rainAlertEnabled := StoredSetting(storage.GetItem(RAIN_ALERT_KEY), JBool(true));
      if rainAlertEnabled.None? || !Truthy(rainAlertEnabled.value) {
        return;
      }
      var isRaining := CheckForRainAlerts(response);
      if isRaining && !WasRecentlyNotifiedAboutRain(storage.GetItem(LAST_RAIN_KEY), now) {
        sink.SendNotification(RAIN_NOTICE.title, RAIN_NOTICE.body, RAIN_NOTICE.icon);
        MarkRainNotificationSent(now);
      }
    }

    /**
     * A live timer fires at instant `now`: it runs the check it captured.
     * `response` is the outcome of the weather request a weather check makes.
     */
    method Tick(id: TimerId, dayStartMs: int, now: int, response: Option<OpenMeteoData>)
      requires Valid() && id in timers
      modifies storage, sink
      ensures sink.permission == old(sink.permission)
      ensures timers[id].task.PrayerCheck? ==>
        && storage.entries == old(storage.entries)
        && var alert := PrayerAlert(storage.entries, timers[id].task.prayerTimes, dayStartMs, now);
           sink.shown == old(sink.shown) + (if alert.Some? && sink.permission == "granted" then [alert.value] else [])
      ensures timers[id].task.WeatherCheck? ==>
        && storage.entries == StoreAfterRainCheck(old(storage.entries), response, now)
        && sink.shown == old(sink.shown)
             + (if RainAlertDue(old(storage.entries), response, now) && sink.permission == "granted" then [RAIN_NOTICE] else [])
    {
      match timers[id].task
      case PrayerCheck(prayerTimes) =>
        CheckPrayerTimeAlerts(prayerTimes, dayStartMs, now);
      case WeatherCheck(latitude, longitude) =>
        CheckWeatherAlerts(latitude, longitude, response, now);
    }
  }

  /** The store with `lead` saved as the alert time the way the settings panel saves it. */
  predicate LeadStored(store: map<string, string>, lead: int) {
    AlertTimeSetting(store) == Some(JInt(lead))
  }

  /**
   * For a lead time of at least one minute, the prayer check fires exactly
   * in the minute-long window that ends `lead` minutes before Maghrib.
   */
  lemma PrayerAlertWindow(store: map<string, string>, prayerTimes: PrayerTimes, dayStartMs: int, now: int, lead: int)
    requires LeadStored(store, lead) && lead >= 1
    requires MaghribInstant(prayerTimes.maghrib, dayStartMs).Some?
    ensures var target := MaghribInstant(prayerTimes.maghrib, dayStartMs).value;
      PrayerAlert(store, prayerTimes, dayStartMs, now).Some?
      <==> target - (lead + 1) * MS_PER_MINUTE < now <= target - lead * MS_PER_MINUTE
  {
    var target := MaghribInstant(prayerTimes.maghrib, dayStartMs).value;
    var c := TimeUntil(target - now);
    if c.totalMinutes == lead {
      assert lead * MS_PER_MINUTE <= target - now < (lead + 1) * MS_PER_MINUTE;
    }
    if target - (lead + 1) * MS_PER_MINUTE < now <= target - lead * MS_PER_MINUTE {
      assert c.totalMinutes * MS_PER_MINUTE <= target - now < (c.totalMinutes + 1) * MS_PER_MINUTE;
      assert c.totalMinutes == lead;
    }
  }

  /**
   * A lead time of zero fires on every check from one minute before
   * Maghrib on, including every check after Maghrib has passed: the zero
   * countdown also stands for "passed".
   */
  lemma ZeroLeadFiresAfterMaghrib(store: map<string, string>, prayerTimes: PrayerTimes, dayStartMs: int, now: int)
    requires LeadStored(store, 0)
    requires MaghribInstant(prayerTimes.maghrib, dayStartMs).Some?
    ensures var target := MaghribInstant(prayerTimes.maghrib, dayStartMs).value;
      PrayerAlert(store, prayerTimes, dayStartMs, now).Some? <==> now > target - MS_PER_MINUTE
  {
    ZeroTotalIsAmbiguous(MaghribInstant(prayerTimes.maghrib, dayStartMs).value - now);
  }

  /** Two checks a minute or more apart never both fire. */
  lemma AtMostOncePerMinute(store: map<string, string>, prayerTimes: PrayerTimes, dayStartMs: int, lead: int, now1: int, now2: int)
    requires LeadStored(store, lead) && lead >= 1
    requires now2 - now1 >= PRAYER_CHECK_PERIOD_MS
    ensures !(PrayerAlert(store, prayerTimes, dayStartMs, now1).Some? && PrayerAlert(store, prayerTimes, dayStartMs, now2).Some?)
  {
    if MaghribInstant(prayerTimes.maghrib, dayStartMs).Some? {
      PrayerAlertWindow(store, prayerTimes, dayStartMs, now1, lead);
      PrayerAlertWindow(store, prayerTimes, dayStartMs, now2, lead);
    }
  }

  /**
   * Checks one minute apart, starting no later than the window, reach it:
   * some check fires.
   */
  lemma MinuteChecksReachWindow(store: map<string, string>, prayerTimes: PrayerTimes, dayStartMs: int, lead: int, start: int)
    requires LeadStored(store, lead) && lead >= 1
    requires MaghribInstant(prayerTimes.maghrib, dayStartMs).Some?
    requires start <= MaghribInstant(prayerTimes.maghrib, dayStartMs).value - lead * MS_PER_MINUTE
    ensures exists k: nat :: PrayerAlert(store, prayerTimes, dayStartMs, start + k * PRAYER_CHECK_PERIOD_MS).Some?
  {
    var target := MaghribInstant(prayerTimes.maghrib, dayStartMs).value;
    var gap := target - lead * MS_PER_MINUTE - start;
    var k: nat := gap / PRAYER_CHECK_PERIOD_MS;
    var now := start + k * PRAYER_CHECK_PERIOD_MS;
    assert target - (lead + 1) * MS_PER_MINUTE < now <= target - lead * MS_PER_MINUTE;
    PrayerAlertWindow(store, prayerTimes, dayStartMs, now, lead);
  }

  /**
   * A clock that jumps from `lead + 2` to `lead - 1` whole minutes before
   * Maghrib skips the window: neither check fires.
   */
  lemma SkippedMinuteMissesAlert(store: map<string, string>, prayerTimes: PrayerTimes, dayStartMs: int, lead: int)
    requires LeadStored(store, lead) && lead >= 1
    requires MaghribInstant(prayerTimes.maghrib, dayStartMs).Some?
    ensures var target := MaghribInstant(prayerTimes.maghrib, dayStartMs).value;
      && PrayerAlert(store, prayerTimes, dayStartMs, target - (lead + 2) * MS_PER_MINUTE).None?
      && PrayerAlert(store, prayerTimes, dayStartMs, target - (lead - 1) * MS_PER_MINUTE).None?
  {
    var target := MaghribInstant(prayerTimes.maghrib, dayStartMs).value;
    PrayerAlertWindow(store, prayerTimes, dayStartMs, target - (lead + 2) * MS_PER_MINUTE, lead);
    PrayerAlertWindow(store, prayerTimes, dayStartMs, target - (lead - 1) * MS_PER_MINUTE, lead);
  }

  /** Whatever the settings panel saved as the Maghrib toggle, the prayer check behaves the same. */
  lemma MaghribToggleIgnored(store: map<string, string>, toggle: string, prayerTimes: PrayerTimes, dayStartMs: int, now: int)
    ensures PrayerAlert(store[MAGHRIB_ALERT_KEY := toggle], prayerTimes, dayStartMs, now)
         == PrayerAlert(store, prayerTimes, dayStartMs, now)
  {
    assert MAGHRIB_ALERT_KEY != ALERT_TIME_KEY;
    assert AlertTimeSetting(store[MAGHRIB_ALERT_KEY := toggle]) == AlertTimeSetting(store);
  }

  /** A stored timestamp `last` puts `now` in the cooldown exactly when less than an hour has passed. */
  lemma CooldownIff(last: int, now: int)
    ensures WasRecentlyNotifiedAboutRain(Some(IntToString(last)), now) <==> now - last < RAIN_COOLDOWN_MS
  {
    ParseIntRoundTrip(last);
  }

  /** With no stored timestamp, or an empty one, there is no cooldown: a due alert needs only the toggle and rain. */
  lemma NoTimestampNoCooldown(store: map<string, string>, response: Option<OpenMeteoData>, now: int)
    requires LAST_RAIN_KEY !in store || store[LAST_RAIN_KEY] == ""
    ensures RainAlertDue(store, response, now) <==> RainAlertEnabled(store) && CheckForRainAlerts(response)
  {
  }

  /** Different lead times give different prayer notices: the notice names its lead. */
  lemma PrayerNoticeNamesLead(a: int, b: int)
    ensures PrayerNotice(a) == PrayerNotice(b) ==> a == b
  {
    if PrayerNotice(a) == PrayerNotice(b) {
      var x, y := IntToString(a), IntToString(b);
      var body := PrayerNotice(a).body;
      assert body == PRAYER_BODY_HEAD + x + PRAYER_BODY_TAIL == PRAYER_BODY_HEAD + y + PRAYER_BODY_TAIL;
      assert |x| == |y|;
      assert x == body[|PRAYER_BODY_HEAD|..|PRAYER_BODY_HEAD| + |x|] == y;
      ParseIntRoundTrip(a);
      ParseIntRoundTrip(b);
    }
  }

  /** Writing the timestamp does not touch the rain toggle. */
  lemma TimestampKeepsToggle(store: map<string, string>, stamp: string)
    ensures RainAlertEnabled(store[LAST_RAIN_KEY := stamp]) == RainAlertEnabled(store)
  {
    assert LAST_RAIN_KEY != RAIN_ALERT_KEY;
    assert RainAlertSetting(store[LAST_RAIN_KEY := stamp]) == RainAlertSetting(store);
  }

  /**
   * After a rain alert at `t`, a later check at `t2` alerts again exactly
   * when rain alerts are still on, it is raining, and a full hour has
   * passed since `t`.
   */
  lemma CooldownAfterAlert(store: map<string, string>, r1: Option<OpenMeteoData>, t: int,
                           r2: Option<OpenMeteoData>, t2: int)
    requires RainAlertDue(store, r1, t)
    ensures RainAlertDue(StoreAfterRainCheck(store, r1, t), r2, t2)
            <==> RainAlertEnabled(store) && CheckForRainAlerts(r2) && t2 - t >= RAIN_COOLDOWN_MS
  {
    CooldownIff(t, t2);
    TimestampKeepsToggle(store, IntToString(t));
  }

  /**
   * With rain reported: an alert 30 minutes ago suppresses a new one; an
   * alert an hour and one millisecond ago does not.
   */
  lemma CooldownExamples(store: map<string, string>, response: Option<OpenMeteoData>, now: int)
    requires RainAlertEnabled(store) && CheckForRainAlerts(response)
    ensures !RainAlertDue(store[LAST_RAIN_KEY := IntToString(now - 1800000)], response, now)
    ensures RainAlertDue(store[LAST_RAIN_KEY := IntToString(now - 3600001)], response, now)
  {
    CooldownIff(now - 1800000, now);
    CooldownIff(now - 3600001, now);
    TimestampKeepsToggle(store, IntToString(now - 1800000));
    TimestampKeepsToggle(store, IntToString(now - 3600001));
  }
}
