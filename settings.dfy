/** The plugin's two settings and how `loadSettings` merges stored data over
    the defaults (main.ts:13-21, 52-58). */
module Settings {
  import opened Wrappers

  datatype SyncPluginSettings = SyncPluginSettings(syncSource: string, syncDestination: string)

  /** `DEFAULT_SETTINGS`. */
  const DefaultSource: string := "~/Notes"
  const DefaultDestination: string := "gdrive:\"notes_vault\""
  const DEFAULT_SETTINGS: SyncPluginSettings := SyncPluginSettings(DefaultSource, DefaultDestination)

  /** What `loadData()` hands back: nothing at all (no data file), or an object
      in which each of the two fields may be missing. */
  datatype StoredData = StoredData(syncSource: Option<string>, syncDestination: Option<string>)

  /** `Object.assign({}, DEFAULT_SETTINGS, loaded)`: a field present in the
      loaded data wins, a missing one keeps its default, and a missing object
      leaves the defaults as they are. The result is a new value, so later
      edits to the settings never reach `DEFAULT_SETTINGS`. */
  function LoadSettings(loaded: Option<StoredData>): (r: SyncPluginSettings)
    ensures loaded.Some? && loaded.value.syncSource.Some? ==>
              r.syncSource == loaded.value.syncSource.value
    ensures loaded.None? || loaded.value.syncSource.None? ==> r.syncSource == "~/Notes"
    ensures loaded.Some? && loaded.value.syncDestination.Some? ==>
              r.syncDestination == loaded.value.syncDestination.value
    ensures loaded.None? || loaded.value.syncDestination.None? ==>
              r.syncDestination == "gdrive:\"notes_vault\""
  {
    match loaded
    case None => DEFAULT_SETTINGS
    case Some(data) =>
      SyncPluginSettings(data.syncSource.GetOr(DEFAULT_SETTINGS.syncSource),
                         data.syncDestination.GetOr(DEFAULT_SETTINGS.syncDestination))
  }

  /** What `saveSettings` writes: both fields of the current settings. */
  function Saved(s: SyncPluginSettings): StoredData
  {
    StoredData(Some(s.syncSource), Some(s.syncDestination))
  }

  /** Saving and loading again gives back the same settings. */
  lemma SaveLoadRoundTrip(s: SyncPluginSettings)
    ensures LoadSettings(Some(Saved(s))) == s
  {
  }

  /** Loading when nothing or an empty object was stored yields the defaults. */
  lemma LoadEmptyIsDefault()
    ensures LoadSettings(None) == DEFAULT_SETTINGS
    ensures LoadSettings(Some(StoredData(None, None))) == DEFAULT_SETTINGS
  {
  }
}
