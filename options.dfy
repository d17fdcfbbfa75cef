/** The settings page: the aspect-ratio sanitiser, the mapping between the
    stored open mode and the two mode radios, the visibility of the window
    settings, and the form state those handlers update. */
module Options {
  import opened Wrappers
  import Background

  /** `Math.max(0.1, parseFloat(v) || 1)`: `parsed` is what `parseFloat`
      read (`None` for `NaN`); `NaN` and `0` are falsy and become 1. */
  function SanitizeRatio(parsed: Option<real>): (r: real)
    ensures r >= 0.1
    ensures parsed.None? || parsed == Some(0.0) ==> r == 1.0
    ensures parsed.Some? && parsed.value >= 0.1 ==> r == parsed.value
    ensures parsed.Some? && parsed.value != 0.0 && parsed.value < 0.1 ==> r == 0.1
  {
    var n := match parsed
      case Some(v) => if v == 0.0 then 1.0 else v
      case None => 1.0;
    if n < 0.1 then 0.1 else n
  }

  /** Writing the sanitised value back and sanitising again changes nothing. */
  lemma SanitizeIdempotent(parsed: Option<real>)
    ensures SanitizeRatio(Some(SanitizeRatio(parsed))) == SanitizeRatio(parsed)
  {
  }

  /** The checked state of the two mode radios. */
  datatype Radios = Radios(windowChecked: bool, tabChecked: bool)

  /** How loading sets the radios from the stored mode (options.js:36-42). */
  function RadiosForMode(mode: string): (r: Radios)
    ensures r.windowChecked != r.tabChecked
    ensures r.tabChecked <==> mode == Background.TabMode
  {
    if mode == Background.TabMode then Radios(false, true) else Radios(true, false)
  }

  /** The mode read back from the radios (options.js:53, 90). */
  function ModeFromRadios(windowChecked: bool): (mode: string)
    ensures mode == Background.WindowMode || mode == Background.TabMode
    ensures mode == Background.WindowMode <==> windowChecked
  {
    if windowChecked then Background.WindowMode else Background.TabMode
  }

  /** `updateWindowSettingsVisibility`: whether the window settings are hidden. */
  function WindowSettingsHidden(mode: string): (hidden: bool)
    ensures hidden <==> mode != Background.WindowMode
  {
    mode != Background.WindowMode
  }

  /** For the two modes the page writes, loading and reading back agree, and
      the panel is shown exactly when the window radio is checked. */
  lemma KnownModeRoundTrip(mode: string)
    requires mode == Background.WindowMode || mode == Background.TabMode
    ensures ModeFromRadios(RadiosForMode(mode).windowChecked) == mode
    ensures WindowSettingsHidden(mode) == !RadiosForMode(mode).windowChecked
  {
  }

  /** Radios with one checked survive a save and a reload unchanged. */
  lemma RadiosRoundTrip(windowChecked: bool)
    ensures RadiosForMode(ModeFromRadios(windowChecked)) == Radios(windowChecked, !windowChecked)
  {
  }

  /** A stored mode that is neither `'window'` nor `'tab'` checks the window
      radio yet hides the window settings, and reads back as `'window'`. */
  lemma UnknownModeLoad(mode: string)
    requires mode != Background.WindowMode && mode != Background.TabMode
    ensures RadiosForMode(mode) == Radios(true, false)
    ensures WindowSettingsHidden(mode)
    ensures ModeFromRadios(RadiosForMode(mode).windowChecked) == Background.WindowMode
  {
  }

  /** The form controls of the settings page. The aspect fields hold what
      `parseFloat` reads from their text boxes (`None` for `NaN`). */
  class SettingsForm {
    var windowSize: int
    var aspectWidth: Option<real>
    var aspectHeight: Option<real>
    var modeWindowChecked: bool
    var modeTabChecked: bool
    var windowSettingsHidden: bool

    constructor (windowSize: int, aspectWidth: Option<real>, aspectHeight: Option<real>,
                 modeWindowChecked: bool, modeTabChecked: bool, windowSettingsHidden: bool)
      ensures this.windowSize == windowSize
      ensures this.aspectWidth == aspectWidth && this.aspectHeight == aspectHeight
      ensures this.modeWindowChecked == modeWindowChecked && this.modeTabChecked == modeTabChecked
      ensures this.windowSettingsHidden == windowSettingsHidden
    {
      this.windowSize := windowSize;
      this.aspectWidth := aspectWidth;
      this.aspectHeight := aspectHeight;
      this.modeWindowChecked := modeWindowChecked;
      this.modeTabChecked := modeTabChecked;
      this.windowSettingsHidden := windowSettingsHidden;
    }

    /** Exactly one radio is checked and the panel is shown exactly in window mode. */
    predicate Consistent()
      reads this
    {
      modeWindowChecked != modeTabChecked &&
      windowSettingsHidden == WindowSettingsHidden(ModeFromRadios(modeWindowChecked))
    }

    /** The settings object `saveSettings` writes (options.js:88-103). */
    function SavedSettings(): (s: Background.Settings)
      reads this
      ensures s.openMode == Background.WindowMode || s.openMode == Background.TabMode
      ensures s.openMode == Background.WindowMode <==> modeWindowChecked
      ensures s.windowSize == windowSize
      ensures s.aspectRatioWidth == aspectWidth && s.aspectRatioHeight == aspectHeight
    {
      Background.Settings(windowSize, aspectWidth, aspectHeight, ModeFromRadios(modeWindowChecked))
    }

    /** `loadSettings`: a failed read leaves the form as it was. */
    method LoadSettings(read: Background.StorageRead)
      modifies this
      ensures read.Failed? ==> unchanged(this)
      ensures read.Returned? ==>
        var s := read.settings;
        windowSize == s.windowSize &&
        aspectWidth == s.aspectRatioWidth && aspectHeight == s.aspectRatioHeight &&
        Radios(modeWindowChecked, modeTabChecked) == RadiosForMode(s.openMode) &&
        windowSettingsHidden == WindowSettingsHidden(s.openMode)
      ensures read.Returned? ==> modeWindowChecked != modeTabChecked
      ensures read.Returned? && read.settings.openMode in {Background.WindowMode, Background.TabMode} ==>
        Consistent()
    {
      match read {
        case Failed =>
        case Returned(settings) =>
          windowSize := settings.windowSize;
          aspectWidth := settings.aspectRatioWidth;
          aspectHeight := settings.aspectRatioHeight;
          if settings.openMode == Background.TabMode {
            modeTabChecked := true;
            modeWindowChecked := false;
          } else {
            modeWindowChecked := true;
            modeTabChecked := false;
          }
          windowSettingsHidden := WindowSettingsHidden(settings.openMode);
      }
    }

    /** `handleModeChange`: re-derives the panel visibility from the window
        radio, then saves. */
    method HandleModeChange() returns (saved: Background.Settings)
      modifies this`windowSettingsHidden
      ensures windowSettingsHidden <==> !modeWindowChecked
      ensures modeWindowChecked != modeTabChecked ==> Consistent()
      ensures saved == SavedSettings()
    {
      var selectedMode := ModeFromRadios(modeWindowChecked);
      windowSettingsHidden := WindowSettingsHidden(selectedMode);
      saved := SavedSettings();
    }

    /** `handleSizeChange`: saves the form as it stands. */
    method HandleSizeChange() returns (saved: Background.Settings)
      ensures saved.windowSize == windowSize
      ensures saved.openMode == Background.WindowMode <==> modeWindowChecked
      ensures saved == SavedSettings()
    {
      saved := SavedSettings();
    }

    /** `handleRatioChange`: sanitises both aspect boxes, writes the results
        back and saves, so the saved ratio is a safe divisor. */
    method HandleRatioChange() returns (saved: Background.Settings)
      modifies this`aspectWidth, this`aspectHeight
      ensures aspectWidth == Some(SanitizeRatio(old(aspectWidth)))
      ensures aspectHeight == Some(SanitizeRatio(old(aspectHeight)))
      ensures saved == SavedSettings()
      ensures Background.Usable(saved)
      ensures saved.aspectRatioWidth.value >= 0.1 && saved.aspectRatioHeight.value >= 0.1
    {
      var width := SanitizeRatio(aspectWidth);
      var height := SanitizeRatio(aspectHeight);
      aspectWidth := Some(width);
      aspectHeight := Some(height);
      saved := SavedSettings();
    }
  }

  /** The mode the page saves decides how the background script opens the
      next lookup: a tab exactly when the window radio is unchecked. */
  lemma SavedModeDecidesLookup(windowChecked: bool, text: string, url: string, s: Background.Settings)
    requires text != ""
    requires s.openMode == ModeFromRadios(windowChecked)
    ensures Background.LookupSelection(text, url, Background.Returned(s)).OpenTab? <==> !windowChecked
    ensures Background.LookupSelection(text, url, Background.Returned(s)).OpenPopupWindow? <==> windowChecked
  {
  }

  /** Settings saved after a ratio change are accepted by the size calculation. */
  lemma SanitizedRatioUsable(windowSize: int, width: Option<real>, height: Option<real>, mode: string)
    ensures Background.Usable(Background.Settings(windowSize, Some(SanitizeRatio(width)), Some(SanitizeRatio(height)), mode))
  {
  }
}
