/**
 * The settings panel: a record of five settings, each change saved to
 * `localStorage` under "setting_" followed by the setting's name, as JSON.
 */
module Settings {
  import opened Wrappers
  import opened Json
  import opened Storage
  import NotificationService
  import PrayerService

  const SETTING_PREFIX: string := "setting_"

  /** The lead times the panel offers, in minutes. */
  const ALERT_TIME_OPTIONS: seq<int> := [5, 10, 15, 20, 30, 45]

  /** The store key a setting is saved under. */
  function SettingKey(key: string): (k: string)
    ensures |k| == |SETTING_PREFIX| + |key| && k[..|SETTING_PREFIX|] == SETTING_PREFIX
    ensures k[|SETTING_PREFIX|..] == key
  {
    SETTING_PREFIX + key
  }

  /** The panel's initial record; it is not read back from the store. */
  function InitialSettings(): (s: map<string, Json>)
    ensures s.Keys == {"maghribAlert", "alertTime", "rainAlert", "soundEnabled", "vibration"}
    ensures s["alertTime"] == JInt(15)
    ensures forall k :: k in s && k != "alertTime" ==> s[k] == JBool(true)
  {
    map["maghribAlert" := JBool(true), "alertTime" := JInt(15), "rainAlert" := JBool(true),
        "soundEnabled" := JBool(true), "vibration" := JBool(true)]
  }

  class SettingsPanel {
    var settings: map<string, Json>
    const storage: LocalStorage

    constructor (storage: LocalStorage)
      ensures this.storage == storage
      ensures settings == InitialSettings()
      ensures storage.entries == old(storage.entries)
    {
      this.storage := storage;
      settings := InitialSettings();
    }

    /**
     * `handleSettingChange(key, value)`: set one setting and save its JSON
     * under that setting's key; no other setting and no other key changes.
     */
    method HandleSettingChange(key: string, value: Json)
      modifies this, storage
      ensures settings == old(settings)[key := value]
      ensures storage.entries == old(storage.entries)[SettingKey(key) := Serialize(value)]
      ensures forall k :: k != key && k in old(settings) ==> k in settings && settings[k] == old(settings)[k]
      ensures forall k :: k != SettingKey(key) && k in old(storage.entries) ==>
                k in storage.entries && storage.entries[k] == old(storage.entries)[k]
    {
      settings := settings[key := value];
      storage.SetItem(SettingKey(key), Serialize(value));
    }
  }

  /** The panel saves under exactly the keys the scheduler reads. */
  lemma KeysMatchScheduler()
    ensures SettingKey("alertTime") == NotificationService.ALERT_TIME_KEY
    ensures SettingKey("rainAlert") == NotificationService.RAIN_ALERT_KEY
    ensures SettingKey("maghribAlert") == NotificationService.MAGHRIB_ALERT_KEY
  {
  }

  /** A lead time saved by the panel is the lead time the scheduler reads. */
  lemma AlertTimeWriteThenRead(store: map<string, string>, minutes: int)
    ensures NotificationService.AlertTimeSetting(store[SettingKey("alertTime") := Serialize(JInt(minutes))])
            == Some(JInt(minutes))
  {
    KeysMatchScheduler();
    ParseSerialize(JInt(minutes));
    assert |Serialize(JInt(minutes))| >= 1;
  }

  /** A rain toggle saved by the panel is the toggle the scheduler reads. */
  lemma RainAlertWriteThenRead(store: map<string, string>, enabled: bool)
    ensures NotificationService.RainAlertEnabled(store[SettingKey("rainAlert") := Serialize(JBool(enabled))])
            == enabled
  {
    KeysMatchScheduler();
    ParseSerialize(JBool(enabled));
    assert |Serialize(JBool(enabled))| >= 4;
  }

  /** With nothing stored, the scheduler's defaults are the panel's initial values. */
  lemma DefaultsMatchInitialSettings()
    ensures NotificationService.AlertTimeSetting(map[]) == Some(InitialSettings()["alertTime"])
    ensures NotificationService.RainAlertSetting(map[]) == Some(InitialSettings()["rainAlert"])
  {
  }

  /**
   * Every lead time the panel offers is at least five minutes, so once
   * saved the Maghrib alert can only fire while Maghrib is still ahead,
   * never after it has passed.
   */
  lemma PanelLeadFiresBeforeMaghribOnly(store: map<string, string>, option: int,
      prayerTimes: PrayerService.PrayerTimes, dayStartMs: int, now: int)
    requires option in ALERT_TIME_OPTIONS
    requires PrayerService.MaghribInstant(prayerTimes.maghrib, dayStartMs).Some?
    ensures var saved := store[SettingKey("alertTime") := Serialize(JInt(option))];
      NotificationService.PrayerAlert(saved, prayerTimes, dayStartMs, now).Some? ==>
        now <= PrayerService.MaghribInstant(prayerTimes.maghrib, dayStartMs).value - 5 * PrayerService.MS_PER_MINUTE
  {
    var saved := store[SettingKey("alertTime") := Serialize(JInt(option))];
    AlertTimeWriteThenRead(store, option);
    assert option >= 5;
    NotificationService.PrayerAlertWindow(saved, prayerTimes, dayStartMs, now, option);
  }
}
