# Prayer-time and rain-alert PWA: a Dafny model of its core

The application shows today's Islamic prayer times and a countdown to
Maghrib. It shows the current weather, and it raises browser notifications
at two moments: a set number of minutes before Maghrib, and when it starts
raining. Rain alerts have a one-hour cooldown.

This project models the logic behind those features:

- the prayer-time service: mapping the times API response, the built-in
  fallback schedule, stripping timezone suffixes, and the countdown;
- the weather service: converting Open-Meteo data, the default snapshot,
  and the rain decision;
- the notification service: the two checks, their periodic timers, the
  settings read from `localStorage`, and the rain cooldown;
- the view logic that displays these: 12-hour formatting, the countdown
  text, weather icons and panels, the settings panel's writes, and city
  search.

Clocks, the network and the browser become parameters:

- The current instant `now` and the start of the local day `dayStartMs`
  are plain integers of milliseconds.
- A fetched response is an `Option`. `None` means the request failed or
  the body could not be read.
- A timer firing is an explicit call of `NotificationService.Tick`.

How the code maps to the model:

- `localStorage` is a class holding a `map<string, string>`.
- The notification API is a sink class. It holds the permission and the
  list of notifications it has shown.
- The notification service is a class. Its fields are:
  - the list of live interval handles;
  - the map from handle to the check it runs and its period;
  - the next handle number.

Modules follow the source files:

| module | source |
|---|---|
| `PrayerService` | `src/services/PrayerService.ts` |
| `WeatherService` | `src/services/WeatherService.ts` |
| `NotificationService` | `src/services/NotificationService.ts` |
| `PrayerTimesView` | `src/components/PrayerTimes.tsx` |
| `WeatherAlertView` | `src/components/WeatherAlert.tsx` |
| `Settings` | `src/components/SettingsPanel.tsx` |
| `LocationSelector` | `src/components/LocationSelector.tsx` |
| `Locations` | the location record passed between them |

Helper modules hold the JavaScript built-ins the code relies on:

- `Wrappers`: `Option`;
- `Strings`: `toLowerCase`, `includes`, and `split(c)[0]`;
- `Numerals`: integer to text, `parseInt`, and `%` on negative numbers;
- `Json`: `JSON.stringify` and `JSON.parse` on the values the settings
  store;
- `Storage`: `localStorage`.

The model follows the code. Three of its behaviours a reader might not
expect:

- **The Maghrib toggle.** The settings panel labels its `maghribAlert`
  checkbox "Enable Maghrib alerts" (`src/components/SettingsPanel.tsx:53`)
  and saves it. The prayer check never reads it, so turning it off does not
  stop prayer alerts (`NotificationService.MaghribToggleIgnored`).
- **A passed Maghrib reads as zero.** Once Maghrib has passed,
  `getTimeUntilMaghrib` returns an all-zero countdown, the same value as
  "less than a minute left". A lead time of 0 therefore fires on every
  check after Maghrib (`PrayerService.ZeroTotalIsAmbiguous`,
  `NotificationService.ZeroLeadFiresAfterMaghrib`).
- **The rain cooldown without permission.** The cooldown timestamp is
  written whenever a rain alert is due, even when notification permission
  is not granted and nothing is shown
  (`NotificationService.NotificationService.CheckWeatherAlerts`).

## Model

| member | source | states |
|---|---|---|
| PrayerService.FormatTime | src/services/PrayerService.ts:40-43 | the result is the prefix of the API time before its first space: it holds no space and either is the whole input or stops at a space |
| PrayerService.FormatTimeIdempotent | src/services/PrayerService.ts:40-43 | formatting an already formatted time changes nothing |
| PrayerService.FormatTimeIdentity | src/services/PrayerService.ts:40-43 | a time with no timezone suffix is returned unchanged |
| PrayerService.FormatTimeDropsSuffix | src/services/PrayerService.ts:40-43 | "HH:MM (TZ)" becomes "HH:MM" whatever the suffix |
| PrayerService.FallbackPrayerTimes | src/services/PrayerService.ts:26-36 | the fallback schedule carries the local date it is given |
| PrayerService.GetPrayerTimes | src/services/PrayerService.ts:2-38 | a failed request gives the fallback schedule; otherwise the date is the API's readable date and each of the six times is the API's time cut at its first space |
| PrayerService.ApiMaghribTrimmed | src/services/PrayerService.ts:14-22 | an API Maghrib "HH:MM (TZ)" is stored as "HH:MM", whatever the suffix |
| PrayerService.FallbackScheduleIncreasing | src/services/PrayerService.ts:28-36 | the six fallback times all parse and are strictly increasing through the day: Fajr < Sunrise < Dhuhr < Asr < Maghrib < Isha |
| PrayerService.ClockMinutes | src/services/PrayerService.ts:48 | a clock time that parses gives minutes since midnight within one day |
| PrayerService.MaghribInstant | src/services/PrayerService.ts:46-48 | Maghrib today has an instant exactly when the time parses, and that instant lies within the day |
| PrayerService.TimeUntil | src/services/PrayerService.ts:50-60 | a non-positive difference gives 0h 0m 0 total; otherwise the total is the whole minutes in the difference (total·60000 ≤ diff < (total+1)·60000), and hours·60 + minutes = total with 0 ≤ minutes < 60 |
| PrayerService.GetTimeUntilMaghrib | src/services/PrayerService.ts:45-61 | defined exactly when the Maghrib time parses, and then equals the countdown of Maghrib's instant minus now |
| PrayerService.ZeroTotalIsAmbiguous | src/services/PrayerService.ts:52-56 | the total is 0 exactly when less than one minute remains, passed Maghrib included |
| PrayerService.MaghribExamples | src/services/PrayerService.ts:45-61 | with Maghrib at 18:30: at 17:50 the countdown is 0h 40m (40 total); at 19:00 it is all zero |
| WeatherService.FirstPrecipitation | src/services/WeatherService.ts:37 | the first hourly precipitation value, or 0 when the series is missing or empty |
| WeatherService.Classify | src/services/WeatherService.ts:39-62 | WMO codes 51–67 give Rain/"rain"; 80–82 give Rain/"rain showers"; 95–99 give Thunderstorm; 1–3 give Clouds/"cloudy"; anything else gives Clear/"clear sky"; any positive precipitation overrides all of these with Rain/"rain" |
| WeatherService.ConvertOpenMeteoData | src/services/WeatherService.ts:35-79 | defined exactly when current weather is present; the snapshot carries the temperature, humidity 65, the coordinates, the first precipitation value and the single classified condition |
| WeatherService.DefaultWeatherData | src/services/WeatherService.ts:81-93 | 22 °C, 60 % humidity, one Clear/"clear sky" condition, 0 precipitation, no coordinates |
| WeatherService.GetCurrentWeather | src/services/WeatherService.ts:3-33 | a failed request gives the default snapshot; otherwise the converted response, or the default if conversion fails |
| WeatherService.IsRaining | src/services/WeatherService.ts:95-102 | rain exactly when the first condition's main is "Rain", or its description contains "rain" in any case, or the precipitation is positive |
| WeatherService.CheckForRainAlerts | src/services/WeatherService.ts:104-107 | the rain decision on the fetched snapshot; a failed request is never rain |
| WeatherService.DefaultIsDry | src/services/WeatherService.ts:81-102 | the default snapshot does not count as rain |
| WeatherService.RainDescriptions | src/services/WeatherService.ts:44-49 | both rain descriptions mention "rain" after lower-casing |
| WeatherService.DryDescriptions | src/services/WeatherService.ts:50-56 | "thunderstorm", "cloudy" and "clear sky" do not mention "rain" |
| WeatherService.ConvertedRainIff | src/services/WeatherService.ts:44-62 | a converted snapshot counts as rain exactly when the code is in 51–67 or 80–82 or the precipitation is positive |
| WeatherService.RainSignalExamples | src/services/WeatherService.ts:95-102 | each of the three signals alone (main "Rain", "rain" in the description, positive precipitation) makes rain; none of them means no rain |
| WeatherService.EmptySnapshotIsDry | src/services/WeatherService.ts:95-102 | a snapshot with no conditions and no precipitation is not rain |
| Numerals.ParseIntRoundTrip | src/services/NotificationService.ts:121-126 | `parseInt` reads back exactly the integer that `toString` wrote (in JavaScript this holds for integers below 10^21, see Left out) |
| Numerals.JsRem12 | src/components/PrayerTimes.tsx:40 | the truncating `% 12`: within [0, 12) for non-negative hours, (−12, 0] for negative ones, and 0 exactly on multiples of 12; it differs from the hour by a multiple of 12, which fixes it as JavaScript's `hour % 12` |
| Json.Parse | src/services/NotificationService.ts:109 | "null", "true"/"false" and integer literals parse to null, a boolean and an integer, and only those |
| Json.ParseSerialize | src/components/SettingsPanel.tsx:21 | `JSON.parse` of a stringified setting value gives the value back |
| Storage.LocalStorage.GetItem | src/services/NotificationService.ts:108 | `null` (`None`) exactly when the key was never set, otherwise the stored text; the checks read their settings and the timestamp through it |
| Storage.LookupAfterWrite | src/services/NotificationService.ts:118-126 | after writing a key it reads back the value written, and every other key reads as before |
| Storage.LocalStorage.SetItem | src/components/SettingsPanel.tsx:21 | the key now maps to the value and every other entry is unchanged; `GetItem` then returns the value for that key and what it returned before for every other key |
| NotificationService.StoredSetting | src/services/NotificationService.ts:107-115 | a missing or empty entry gives the default; any other entry gives its `JSON.parse` |
| NotificationService.AlertTimeSetting | src/services/NotificationService.ts:107-110 | with no stored lead time, or an empty one, the lead is 15 minutes |
| NotificationService.RainAlertSetting | src/services/NotificationService.ts:112-115 | with no stored toggle, or an empty one, rain alerts are on |
| NotificationService.RainAlertEnabled | src/services/NotificationService.ts:90-92 | the weather check goes on when no toggle (or an empty one) is stored; it goes on only when the stored toggle parses |
| NotificationService.WasRecentlyNotifiedAboutRain | src/services/NotificationService.ts:117-123 | no timestamp, or an empty one, is never recent; recent exactly when the timestamp reads as an integer less than 3 600 000 ms before now |
| NotificationService.NoTimestampNoCooldown | src/services/NotificationService.ts:117-123 | with no stored timestamp, or an empty one, an alert is due exactly when the toggle is on and it rains |
| NotificationService.RainAlertDue | src/services/NotificationService.ts:92-96 | an alert is due only when the toggle is on and it rains, and never after a failed weather request |
| NotificationService.PrayerNotice | src/services/NotificationService.ts:81-85 | the notice is titled "Maghrib Prayer Alert", carries the alert icon, and its body contains the lead time |
| NotificationService.PrayerNoticeNamesLead | src/services/NotificationService.ts:81-85 | two lead times give the same notice only when they are equal |
| NotificationService.PrayerAlert | src/services/NotificationService.ts:75-87 | a prayer notice is due exactly when the stored lead is an integer, Maghrib parses, and the whole minutes left equal the lead; the notice names that lead |
| NotificationService.StoreAfterRainCheck | src/services/NotificationService.ts:89-105 | a rain check leaves the store alone unless an alert is due, and then records `now` as the last rain alert |
| NotificationService.NotificationSink.SendNotification | src/services/NotificationService.ts:32-53 | the notice is shown exactly when permission is "granted"; nothing else changes |
| NotificationService.NotificationService.constructor | src/services/NotificationService.ts:4-5 | the service starts with no intervals and no live timers |
| NotificationService.NotificationService.ClearIntervals | src/services/NotificationService.ts:57 | every timer in the handle list is cleared and no live timer remains; the list itself is kept |
| NotificationService.NotificationService.SetInterval | src/services/NotificationService.ts:63-70 | when every live handle is below the next number, the returned handle is not live yet; it is bound to the task and its period, and other timers are untouched |
| NotificationService.NotificationService.SetupPeriodicChecks | src/services/NotificationService.ts:55-73 | old timers are cleared; with no location or no prayer times nothing else runs; otherwise exactly two live timers: the prayer check every 60 000 ms and the weather check for the location every 300 000 ms, and the handle list is these two |
| NotificationService.NotificationService.Cleanup | src/services/NotificationService.ts:129-132 | every listed timer is cleared, leaving no handles and no live timers; the handle counter is kept, so a second call changes nothing |
| NotificationService.NotificationService.CheckPrayerTimeAlerts | src/services/NotificationService.ts:75-87 | shows the due prayer notice if there is one and permission is granted; the store is untouched |
| NotificationService.NotificationService.MarkRainNotificationSent | src/services/NotificationService.ts:125-127 | the last-rain entry becomes `now` as text; other entries are unchanged |
| NotificationService.NotificationService.CheckWeatherAlerts | src/services/NotificationService.ts:89-105 | the store becomes `StoreAfterRainCheck`; the rain notice is shown exactly when an alert is due (toggle on, raining, out of cooldown) and permission is granted |
| NotificationService.NotificationService.Tick | src/services/NotificationService.ts:63-70 | a live timer runs the check it captured, with the effect that check's contract states |
| NotificationService.PrayerAlertWindow | src/services/NotificationService.ts:75-87 | for a lead L ≥ 1 the alert fires exactly when now lies in (Maghrib − (L+1) min, Maghrib − L min] |
| NotificationService.ZeroLeadFiresAfterMaghrib | src/services/NotificationService.ts:75-87 | a lead of 0 fires at every instant from one minute before Maghrib on, including after it |
| NotificationService.AtMostOncePerMinute | src/services/NotificationService.ts:63-80 | two prayer checks a full period apart never both fire |
| NotificationService.MinuteChecksReachWindow | src/services/NotificationService.ts:63-80 | checks every 60 000 ms that start no later than the window end hit the window: some check fires |
| NotificationService.SkippedMinuteMissesAlert | src/services/NotificationService.ts:78-80 | checks at L+2 and at L−1 minutes before Maghrib both miss the alert, so a skipped tick loses it |
| NotificationService.MaghribToggleIgnored | src/services/NotificationService.ts:75-87 | whatever the stored Maghrib toggle is, the prayer check decides the same |
| NotificationService.CooldownIff | src/services/NotificationService.ts:117-126 | with a timestamp written by `markRainNotificationSent` the check is in cooldown exactly when less than 3 600 000 ms have passed |
| NotificationService.TimestampKeepsToggle | src/services/NotificationService.ts:112-127 | writing the timestamp does not change whether rain alerts are enabled |
| NotificationService.CooldownAfterAlert | src/services/NotificationService.ts:89-123 | after a rain alert at t, a check at t2 alerts again exactly when alerts are on, it rains, and t2 − t ≥ one hour |
| NotificationService.CooldownExamples | src/services/NotificationService.ts:117-123 | while it rains, an alert 30 minutes ago suppresses a new one and one an hour and 1 ms ago does not |
| PrayerTimesView.DisplayHour | src/components/PrayerTimes.tsx:40 | the displayed hour is in 1..12 with the same residue mod 12; 1–12 stay, 13–23 lose 12 |
| PrayerTimesView.Suffix | src/components/PrayerTimes.tsx:39 | PM exactly for hours ≥ 12, AM exactly for hours < 12 |
| PrayerTimesView.FormatTime | src/components/PrayerTimes.tsx:35-42 | an absent or empty time shows "--:--" |
| PrayerTimesView.FormatClockTime | src/components/PrayerTimes.tsx:35-42 | "hh:mm" shows the 12-hour form of hh, the minutes as written, and AM or PM |
| PrayerTimesView.FallbackMaghribShown | src/components/PrayerTimes.tsx:35-42 | the fallback schedule's Maghrib ("18:30") shows as "6:30 PM" |
| PrayerTimesView.CountdownText | src/components/PrayerTimes.tsx:22-28 | an unparsable or non-positive difference reads "Prayer time has passed" |
| PrayerTimesView.CountdownUpdate | src/components/PrayerTimes.tsx:18-29 | no update without a Maghrib time; an unparsable Maghrib reads as passed; otherwise the text is the countdown to Maghrib's instant from now |
| PrayerTimesView.CountdownAgreesWithService | src/components/PrayerTimes.tsx:22-25 | for a positive difference the card shows the same hours and minutes the notification service computes |
| WeatherAlertView.IsRaining | src/components/WeatherAlert.tsx:9-11 | positive precipitation always counts as rain; with no condition only precipitation counts |
| WeatherAlertView.Condition | src/components/WeatherAlert.tsx:15 | present exactly when the first condition has a main field; it is that field lower-cased character by character, with no upper-case letter left |
| WeatherAlertView.WeatherIcon | src/components/WeatherAlert.tsx:14-20 | the rain icon exactly when it rains; otherwise the cloud icon when the condition mentions "cloud", else the sun |
| WeatherAlertView.VisiblePanels | src/components/WeatherAlert.tsx:27-74 | exactly one of the rain and clear-weather panels shows; the rain dot goes with rain; the precipitation panel shows exactly when precipitation is positive |
| WeatherAlertView.AgreesWithService | src/components/WeatherAlert.tsx:9-11 | the card's rain test is the weather service's rain test |
| WeatherAlertView.PrecipitationImpliesRainPanel | src/components/WeatherAlert.tsx:50-58 | a visible precipitation panel comes with the rain panel |
| WeatherAlertView.ConvertedDryIcons | src/components/WeatherAlert.tsx:14-20 | dry converted data with code 1–3 shows the cloud icon; with code 95–99 it shows the sun |
| Settings.SettingKey | src/components/SettingsPanel.tsx:21 | the storage key is "setting_" followed by the setting name |
| Settings.InitialSettings | src/components/SettingsPanel.tsx:10-16 | five settings: alert time 15, the four toggles on |
| Settings.SettingsPanel.constructor | src/components/SettingsPanel.tsx:9-16 | the panel starts from the initial settings and does not write storage |
| Settings.SettingsPanel.HandleSettingChange | src/components/SettingsPanel.tsx:18-22 | exactly the changed setting takes the new value, and exactly its prefixed storage key takes the serialized value |
| Settings.KeysMatchScheduler | src/components/SettingsPanel.tsx:21 | the keys the panel writes are the keys the notification service reads |
| Settings.AlertTimeWriteThenRead | src/components/SettingsPanel.tsx:18-22 | a lead time saved by the panel is read back by the service as that integer |
| Settings.RainAlertWriteThenRead | src/components/SettingsPanel.tsx:18-22 | a rain toggle saved by the panel is read back as enabled exactly when it was true |
| Settings.DefaultsMatchInitialSettings | src/components/SettingsPanel.tsx:10-16 | with nothing stored the service's defaults equal the panel's initial alert time and rain toggle |
| Settings.PanelLeadFiresBeforeMaghribOnly | src/components/SettingsPanel.tsx:24 | with any lead time the panel offers saved, a prayer alert only ever fires at least 5 minutes before Maghrib, never at or after it |
| LocationSelector.Matches | src/components/LocationSelector.tsx:47-50 | the empty term matches every city; a matching term is no longer than the city's name or its country |
| LocationSelector.FilteredCities | src/components/LocationSelector.tsx:47-50 | the listed cities are popular cities in their original order, at most all of them |
| LocationSelector.Filter | src/components/LocationSelector.tsx:47-50 | the filtered list is no longer than the city list |
| LocationSelector.FilterMembership | src/components/LocationSelector.tsx:47-50 | a city is listed exactly when it is a popular city whose name or country contains the term, case-insensitively |
| LocationSelector.FilterIsSubsequence | src/components/LocationSelector.tsx:47-50 | the filter keeps the original order |
| LocationSelector.SubsequenceOfTail | src/components/LocationSelector.tsx:47-50 | a subsequence of the tail is a subsequence of the whole list |
| LocationSelector.EmptyTermKeepsAll | src/components/LocationSelector.tsx:47-50 | the empty search term keeps every city |
| LocationSelector.EmptySearchListsAll | src/components/LocationSelector.tsx:14-50 | with an empty search all 30 popular cities are listed |
| LocationSelector.FilterCaseInsensitive | src/components/LocationSelector.tsx:47-50 | terms equal after lower-casing filter alike |
| LocationSelector.SearchIgnoresCase | src/components/LocationSelector.tsx:47-50 | the upper- and lower-cased term list the same cities as the term typed |
| LocationSelector.SelectLocation | src/components/LocationSelector.tsx:52-59 | the selected location carries the city's coordinates and full name |
| LocationSelector.ShortName | src/components/LocationSelector.tsx:114 | the shown name is the part before the first comma |
| LocationSelector.ShortNameOfCityCountry | src/components/LocationSelector.tsx:114 | "City, Country" shows as "City" |

## Left out

- Fetching: the times, weather and location requests, and their URLs, are not modelled. A response is an `Option` parameter.
- OpenWeatherMap: the branch of `getCurrentWeather` that calls it is not modelled. It cannot run, because the API key is empty.
- `registerServiceWorker` and `requestPermission`: not modelled. They only call browser APIs. The permission is a field of the sink.
- `sendNotification`: its choice between a service-worker notification and a basic one is not modelled, nor is the badge, vibration or tag. The model's sink always completes.
- NotificationService.NotificationService.CheckWeatherAlerts: always writes the cooldown timestamp after a due alert. In the source, the service-worker route awaits `navigator.serviceWorker.ready` (`src/services/NotificationService.ts:36`), which never settles when no worker is active. A rejected show also escapes before `markRainNotificationSent` runs (lines 97-103). In both cases no timestamp is written, so the source re-alerts where the model stays in cooldown.
- Timers: the real cadence is not modelled. The model records each timer's period, and a firing is an explicit `Tick`.
- Interleaving: the model does not capture two checks overlapping across their awaits.
- Page unload: the `beforeunload` listener is event wiring and is not modelled. It only calls `Cleanup`.
- Dates: `new Date("<today> HH:MM")` becomes `dayStartMs` plus the parsed clock time. Only "H:MM" or "HH:MM" with hour ≤ 23 and minute ≤ 59 parses; anything else stands for an invalid date.
- Time zones, daylight-saving shifts and `toLocaleDateString` are left out. The local date is a parameter.
- `PrayerService.GetTimeUntilMaghrib`: returns `None` for an invalid date. The source computes a countdown of `NaN` fields there.
- Json.Parse: accepts only `null`, `true`, `false` and integers written without leading zeros, with no surrounding whitespace. Text that `JSON.parse` accepts but the model rejects includes strings, `"15.0"` (15), `"1e1"` (10) and `" true"` (true). A stored `"15.0"` would match a 15-minute lead in the source, while the model's check stops. The settings panel itself writes only what `Serialize` produces.
- Numerals.ParseIntPrefix: does not skip leading whitespace and does not read hexadecimal prefixes. The source's `parseInt` reads the cooldown timestamp (written by `toString`), the hour field of a prayer time (`src/components/PrayerTimes.tsx:38`) and the alert-time dropdown value (`src/components/SettingsPanel.tsx:69`, not modelled). An hour field with leading spaces would read as `NaN` in the model but as a number in JavaScript.
- Strings.ToLower: lower-cases ASCII letters only; case folding of other characters is not modelled. The city names and weather descriptions are ASCII, but the search term is free user input (`src/components/LocationSelector.tsx:89`). JavaScript lower-cases U+212A KELVIN SIGN to "k", so the term "\u212Aarachi" lists Karachi in the source and nothing in the model.
- Numerals.ParseIntRoundTrip: integers are unbounded in the model, while JavaScript numbers are doubles: an integer of 10^21 or more `toString`s to exponent form ("1e+21") and `parseInt` reads it back as 1. The round trip holds in the source only below that bound; the millisecond timestamps it is used on are far below it.
- Temperature display (`Math.round`) and precipitation display (`toFixed(1)`) are not modelled. The temperature is kept as the integer the model receives.
- `WeatherService.FirstPrecipitation`: the hourly series is modelled as numbers. A `null` element, which `|| 0` would turn into 0, is not modelled.
- UI: React state, rendering, styles, the clock display and the settings panel's sound, vibration and Maghrib-toggle controls are not modelled. They only change what is shown; the toggles are stored through `HandleSettingChange`.
- `App.tsx`, `LocationService.ts`, `NotificationBanner.tsx` and the service worker are not part of this model.
