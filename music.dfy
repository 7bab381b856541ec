/** Music settings of the site as the dashboard edits them: the settings saved
    from the form and the reset to the default theme. */
module Music {
  import opened Js
  import opened Text

  datatype MusicSettings = MusicSettings(sourceType: string, sourceUrl: string,
                                         volume: real, originalFilename: string)

  const DefaultUrl := "./config/theme.mp3"

  /** The settings the dashboard starts with. */
  const InitialSettings := MusicSettings("default", DefaultUrl, 0.20, "theme.mp3")

  /** The default source at a given volume. */
  function DefaultSettings(volume: real): (s: MusicSettings)
    ensures IsDefaultSource(s) && s.volume == volume
  {
    MusicSettings("default", DefaultUrl, volume, "theme.mp3")
  }

  predicate IsDefaultSource(s: MusicSettings) {
    s.sourceType == "default" && s.sourceUrl == DefaultUrl && s.originalFilename == "theme.mp3"
  }

  /** What a save may send: the default source, or a source with a non-empty
      address other than the default one. */
  predicate SaveShape(s: MusicSettings) {
    IsDefaultSource(s) || (s.sourceUrl != "" && s.sourceUrl != DefaultUrl)
  }

  /** The tab whose value is used: the active tab's name, `url` when none is active. */
  function TabType(activeTab: Option<string>): string {
    activeTab.GetOr("url")
  }

  /** The address typed in the url field when that tab is active, after `trim()`; "" when unused. */
  function TypedUrl(activeTab: Option<string>, urlInput: Option<string>): string {
    if TabType(activeTab) == "url" && urlInput.Some? then Trim(urlInput.value) else ""
  }

  /** `saveMusicSettings`: the settings object built before it is sent, by successive
      overwrites of a copy of the current settings. `volume` is the slider's value
      already divided by 100. */
  method PrepareSettings(current: MusicSettings, activeTab: Option<string>, urlInput: Option<string>,
                         volume: real) returns (toSave: MusicSettings)
    ensures SaveShape(toSave) && toSave.volume == volume
    ensures TypedUrl(activeTab, urlInput) != "" && TypedUrl(activeTab, urlInput) != DefaultUrl ==>
      toSave == MusicSettings("url", TypedUrl(activeTab, urlInput), volume, "URL externe")
    ensures TypedUrl(activeTab, urlInput) == DefaultUrl ==> toSave == DefaultSettings(volume)
    ensures TypedUrl(activeTab, urlInput) == "" ==>
      toSave == if current.sourceUrl == "" || current.sourceUrl == DefaultUrl
                then DefaultSettings(volume) else current.(volume := volume)
  {
    toSave := current.(volume := volume);
    var tabType := TabType(activeTab);
    if tabType == "url" && urlInput.Some? && Trim(urlInput.value) != "" {
      toSave := toSave.(sourceType := "url");
      toSave := toSave.(sourceUrl := Trim(urlInput.value));
      toSave := toSave.(originalFilename := "URL externe");
    }
    if toSave.sourceUrl == DefaultUrl || toSave.sourceUrl == "" {
      toSave := toSave.(sourceType := "default");
      toSave := toSave.(sourceUrl := DefaultUrl);
      toSave := toSave.(originalFilename := "theme.mp3");
    }
  }

  /** `resetToDefaultMusic`: the default source, at the current volume. */
  function ResetToDefault(current: MusicSettings): (s: MusicSettings)
    ensures IsDefaultSource(s) && SaveShape(s)
    ensures s.volume == current.volume
  {
    DefaultSettings(current.volume)
  }
}
