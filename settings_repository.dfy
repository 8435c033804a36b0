/**
 * The repository of user settings (repositories/SettingsRepository.kt).  It publishes
 * the current settings and keeps their JSON under the key "settings".
 */
module SettingsRepositories {
  import opened Common
  import opened UserSettingsModel
  import opened KeyValueStorage

  const SettingsKey := "settings"

  /**
   * What the load callback publishes: the decoded settings when the stored JSON
   * decodes, otherwise `UserSettings()` (decode failure, load error, or no data).
   */
  function LoadedSettings(outcome: LoadOutcome, decode: string -> Option<UserSettings>): (r: UserSettings)
    ensures r == DefaultSettings || (outcome.json.Some? && decode(outcome.json.value) == Some(r))
  {
    if outcome.json.Some? then
      (match decode(outcome.json.value)
       case Some(settings) => settings
       case None => DefaultSettings)
    else if outcome.error.Some? then DefaultSettings
    else DefaultSettings
  }

  /** Load publishes decoded settings exactly when there is stored JSON that decodes, and defaults otherwise. */
  lemma LoadedSettingsCases(outcome: LoadOutcome, decode: string -> Option<UserSettings>)
    ensures outcome.json.Some? && decode(outcome.json.value).Some? ==>
      LoadedSettings(outcome, decode) == decode(outcome.json.value).value
    ensures outcome.json.None? || decode(outcome.json.value).None? ==>
      LoadedSettings(outcome, decode) == DefaultSettings
  {
  }

  class SettingsRepository {
    const storage: StorageService
    const encode: UserSettings -> Option<string>
    const decode: string -> Option<UserSettings>

    /** The value of `mUserSettings`. */
    var userSettings: UserSettings

    /** The settings start at `UserSettings()` until the load completes. */
    constructor (storage: StorageService, encode: UserSettings -> Option<string>, decode: string -> Option<UserSettings>)
      ensures this.storage == storage && this.encode == encode && this.decode == decode
      ensures userSettings == DefaultSettings
    {
      this.storage := storage;
      this.encode := encode;
      this.decode := decode;
      userSettings := DefaultSettings;
    }

    /** `loadUserSettings`: reads the "settings" entry and publishes the outcome. */
    method LoadUserSettings(fault: Option<Exception>)
      modifies this
      ensures userSettings == LoadedSettings(
        LoadOutcome(if fault.None? && SettingsKey in storage.entries then Some(storage.entries[SettingsKey]) else None, fault),
        decode)
    {
      var outcome := storage.Load(SettingsKey, fault);
      if outcome.json.Some? {
        var decoded := decode(outcome.json.value);
        if decoded.Some? {
          userSettings := decoded.value;
        } else {
          userSettings := DefaultSettings;
        }
      } else if outcome.error.Some? {
        userSettings := DefaultSettings;
      } else {
        userSettings := DefaultSettings;
      }
    }

    /** `saveUserSettings`: encoding and saving errors are only logged. */
    method SaveUserSettings(settings: UserSettings, fault: Option<Exception>)
      modifies storage
      ensures encode(settings).Some? ==> storage.entries == AfterSave(old(storage.entries), SettingsKey, encode(settings).value, fault)
      ensures encode(settings).None? ==> storage.entries == old(storage.entries)
    {
      var json := encode(settings);
      if json.Some? {
        var error := storage.Save(SettingsKey, json.value, fault);
      }
    }

    /** `updateUserSettings`: publishes the given settings and saves the same value. */
    method UpdateUserSettings(settings: UserSettings, saveFault: Option<Exception>)
      modifies this, storage
      ensures userSettings == settings
      ensures encode(settings).Some? ==> storage.entries == AfterSave(old(storage.entries), SettingsKey, encode(settings).value, saveFault)
      ensures encode(settings).None? || saveFault.Some? ==> storage.entries == old(storage.entries)
    {
      userSettings := settings;
      SaveUserSettings(settings, saveFault);
    }
  }
}
