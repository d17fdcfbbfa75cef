/** The background script: the context-menu lookup, the stored settings with
    their fallback, the popup-size calculation and the tab-or-popup decision. */
module Background {
  import opened Wrappers
  import Text

  // ---------------------------------------------------------------------
  // Settings (background.js:17-35)

  /** The settings object read from synchronised storage. The aspect values
      are `None` when they are not numbers (`NaN`). */
  datatype Settings = Settings(
    windowSize: int,
    aspectRatioWidth: Option<real>,
    aspectRatioHeight: Option<real>,
    openMode: string)

  /** The outcome of a storage read: the values it returned, or a failure. */
  datatype StorageRead = Returned(settings: Settings) | Failed

  const WindowMode: string := "window"
  const TabMode: string := "tab"

  /** The defaults passed to the storage read and returned when it fails. */
  const DefaultSettings: Settings := Settings(50, Some(4.0), Some(3.0), WindowMode)

  /** `getUserSettings`: what storage returned, or the defaults on failure. */
  function UserSettings(read: StorageRead): (s: Settings)
    ensures read.Failed? ==> s == Settings(50, Some(4.0), Some(3.0), "window")
    ensures read.Returned? ==> s == read.settings
  {
    match read
    case Returned(settings) => settings
    case Failed => DefaultSettings
  }

  /** Both aspect values are positive numbers, so either can be a divisor. */
  predicate Usable(s: Settings) {
    s.aspectRatioWidth.Some? && s.aspectRatioWidth.value > 0.0 &&
    s.aspectRatioHeight.Some? && s.aspectRatioHeight.value > 0.0
  }

  // ---------------------------------------------------------------------
  // Lookup URL (background.js:5-13)

  const DictionaryUrl: string := "https://ldoceonline.com/dictionary/"

  /** The lookup URL built from the selected text (background.js:9-10). */
  function LookupUrl(selection: string): (url: string)
    ensures |url| >= |DictionaryUrl| && url[..|DictionaryUrl|] == DictionaryUrl
    ensures Text.NoSpace(url[|DictionaryUrl|..])
    ensures url[|DictionaryUrl|..] == Text.JoinWithHyphens(Text.Words(selection))
  {
    Text.NormalizeIsJoinedWords(selection);
    DictionaryUrl + Text.Normalize(selection)
  }

  /** What a lookup does. */
  datatype Action =
    | NoLookup
    | OpenTab(url: string)          // a new, active tab
    | OpenPopupWindow(url: string)  // a window of type "popup", resized once created

  /** `lookupSelection` (background.js:78-100): an empty selection does nothing;
      stored mode `'tab'` opens a tab; any other mode opens a popup window. */
  function LookupSelection(text: string, url: string, read: StorageRead): (a: Action)
    ensures a == NoLookup <==> text == ""
    ensures a.OpenTab? <==> text != "" && UserSettings(read).openMode == TabMode
    ensures a.OpenPopupWindow? <==> text != "" && UserSettings(read).openMode != TabMode
    ensures a != NoLookup ==> a.url == url
  {
    if text == "" then NoLookup
    else if UserSettings(read).openMode == TabMode then OpenTab(url)
    else OpenPopupWindow(url)
  }

  /** The context-menu click handler (background.js:5-13). `info` is `None`
      when the handler receives no click data. */
  function OnMenuClick(info: Option<string>, read: StorageRead): (a: Action)
    ensures info.None? || info == Some("") ==> a == NoLookup
    ensures info.Some? && info.value != "" ==>
      a != NoLookup && a.url == LookupUrl(info.value) &&
      (a.OpenTab? <==> UserSettings(read).openMode == TabMode)
  {
    match info
    case None => NoLookup
    case Some(selectionText) =>
      LookupSelection(selectionText, LookupUrl(selectionText), read)
  }

  /** A selection of whitespace only passes the emptiness check and opens
      the bare dictionary URL. */
  lemma WhitespaceSelectionOpensBareUrl(selection: string, read: StorageRead)
    requires selection != "" && Text.AllSpace(selection)
    ensures LookupUrl(selection) == DictionaryUrl
    ensures OnMenuClick(Some(selection), read) != NoLookup
    ensures OnMenuClick(Some(selection), read).url == DictionaryUrl
  {
    Text.TrimStartAllSpace(selection);
  }

  /** Failed reads and default-valued reads lead to the same popup. */
  lemma FailedReadOpensPopup(selection: string, url: string)
    requires selection != ""
    ensures LookupSelection(selection, url, Failed) == OpenPopupWindow(url)
    ensures LookupSelection(selection, url, Returned(DefaultSettings)) == LookupSelection(selection, url, Failed)
  {
  }

  // ---------------------------------------------------------------------
  // Window dimensions (background.js:38-62)

  datatype Dimensions = Dimensions(width: int, height: int)

  const MinWidth: int := 320
  const MinHeight: int := 240

  /** `Math.round`: the nearest integer, halves rounded up. */
  function Round(x: real): int {
    (x + 0.5).Floor
  }

  lemma RoundIsNearest(x: real)
    ensures x - 0.5 < Round(x) as real <= x + 0.5
    ensures x - x.Floor as real == 0.5 ==> Round(x) == x.Floor + 1
  {
  }

  function Max(a: int, b: int): int {
    if a < b then b else a
  }

  /** `windowSize / 100` (line 40). */
  function SizeRatio(s: Settings): real {
    s.windowSize as real / 100.0
  }

  /** `aspectRatioHeight / aspectRatioWidth` (lines 47 and 54). */
  function HeightPerWidth(s: Settings): real
    requires Usable(s)
  {
    s.aspectRatioHeight.value / s.aspectRatioWidth.value
  }

  /** `aspectRatioWidth / aspectRatioHeight` (line 58). */
  function WidthPerHeight(s: Settings): real
    requires Usable(s)
  {
    s.aspectRatioWidth.value / s.aspectRatioHeight.value
  }

  /** Lines 46-50: the scaled width, the height derived from that unclamped
      width, then each raised to its minimum independently. */
  function InitialSize(screenWidth: int, s: Settings): (d: Dimensions)
    requires Usable(s)
  {
    var width := Round(screenWidth as real * SizeRatio(s));
    Dimensions(Max(width, MinWidth), Max(Round(width as real * HeightPerWidth(s)), MinHeight))
  }

  /** Lines 52-55: the width correction. A size wider than the screen takes
      the screen width and a height re-derived from the aspect ratio; any
      other size is left alone. */
  function FitWidth(screenWidth: int, s: Settings, d: Dimensions): (r: Dimensions)
    requires Usable(s)
    ensures r.width <= screenWidth
    ensures d.width <= screenWidth ==> r == d
    ensures d.width > screenWidth ==> r.width == screenWidth
  {
    if d.width > screenWidth then Dimensions(screenWidth, Round(screenWidth as real * HeightPerWidth(s)))
    else d
  }

  /** Lines 56-59: the height correction, the mirror of the width one. */
  function FitHeight(screenHeight: int, s: Settings, d: Dimensions): (r: Dimensions)
    requires Usable(s)
    ensures r.height <= screenHeight
    ensures d.height <= screenHeight ==> r == d
  {
    if d.height > screenHeight then Dimensions(Round(screenHeight as real * WidthPerHeight(s)), screenHeight)
    else d
  }

  /** The size `calculateWindowDimensions` settles on: the initial size,
      then one width correction, then one height correction. */
  function WindowDimensions(screenWidth: int, screenHeight: int, s: Settings): (d: Dimensions)
    requires Usable(s)
    ensures d.height <= screenHeight
  {
    FitHeight(screenHeight, s, FitWidth(screenWidth, s, InitialSize(screenWidth, s)))
  }

  /** Lines 46-50 on local variables. */
  method ScaleToScreen(screenWidth: int, settings: Settings) returns (windowWidth: int, windowHeight: int)
    requires Usable(settings)
    ensures Dimensions(windowWidth, windowHeight) == InitialSize(screenWidth, settings)
  {
    var sizeRatio := SizeRatio(settings);
    windowWidth := Round(screenWidth as real * sizeRatio);
    windowHeight := Round(windowWidth as real * HeightPerWidth(settings));
    windowWidth := Max(windowWidth, MinWidth);
    windowHeight := Max(windowHeight, MinHeight);
  }

  /** Lines 52-55 on local variables. */
  method ClampWidthToScreen(screenWidth: int, settings: Settings, width: int, height: int)
    returns (windowWidth: int, windowHeight: int)
    requires Usable(settings)
    ensures Dimensions(windowWidth, windowHeight) == FitWidth(screenWidth, settings, Dimensions(width, height))
  {
    windowWidth, windowHeight := width, height;
    if windowWidth > screenWidth {
      windowWidth := screenWidth;
      windowHeight := Round(windowWidth as real * HeightPerWidth(settings));
    }
  }

  /** Lines 56-59 on local variables. */
  method ClampHeightToScreen(screenHeight: int, settings: Settings, width: int, height: int)
    returns (windowWidth: int, windowHeight: int)
    requires Usable(settings)
    ensures Dimensions(windowWidth, windowHeight) == FitHeight(screenHeight, settings, Dimensions(width, height))
  {
    windowWidth, windowHeight := width, height;
    if windowHeight > screenHeight {
      windowHeight := screenHeight;
      windowWidth := Round(windowHeight as real * WidthPerHeight(settings));
    }
  }

  /** `calculateWindowDimensions`: the storage read is a parameter and the
      available screen size is given as `screenWidth` and `screenHeight`. */
  method CalculateWindowDimensions(read: StorageRead, screenWidth: int, screenHeight: int)
    returns (width: int, height: int)
    requires Usable(UserSettings(read))
    ensures Dimensions(width, height) == WindowDimensions(screenWidth, screenHeight, UserSettings(read))
    ensures height <= screenHeight
  {
    var settings := UserSettings(read);
    var windowWidth, windowHeight := ScaleToScreen(screenWidth, settings);
    windowWidth, windowHeight := ClampWidthToScreen(screenWidth, settings, windowWidth, windowHeight);
    windowWidth, windowHeight := ClampHeightToScreen(screenHeight, settings, windowWidth, windowHeight);
    width, height := windowWidth, windowHeight;
  }

  /** Both minimums hold before any correction (lines 49-50). */
  lemma InitialSizeAtLeastMinimums(screenWidth: int, s: Settings)
    requires Usable(s)
    ensures InitialSize(screenWidth, s).width >= MinWidth
    ensures InitialSize(screenWidth, s).height >= MinHeight
  {
  }

  /** When neither correction fires, the clamped size stands, so both minimums hold. */
  lemma NoCorrectionKeepsMinimums(screenWidth: int, screenHeight: int, s: Settings)
    requires Usable(s)
    requires InitialSize(screenWidth, s).width <= screenWidth
    requires InitialSize(screenWidth, s).height <= screenHeight
    ensures WindowDimensions(screenWidth, screenHeight, s) == InitialSize(screenWidth, s)
    ensures WindowDimensions(screenWidth, screenHeight, s).width >= MinWidth
    ensures WindowDimensions(screenWidth, screenHeight, s).height >= MinHeight
  {
  }

  /** The width correction fires exactly when the size is wider than the
      screen; it then takes the screen width and re-derives the height from
      the aspect ratio instead of keeping the clamped height. */
  lemma WidthCorrection(screenWidth: int, s: Settings, d: Dimensions)
    requires Usable(s)
    ensures var fit := FitWidth(screenWidth, s, d);
      (d.width <= screenWidth ==> fit == d) &&
      (d.width > screenWidth ==>
        fit.width == screenWidth &&
        screenWidth as real * HeightPerWidth(s) - 0.5 < fit.height as real <= screenWidth as real * HeightPerWidth(s) + 0.5)
  {
    if d.width > screenWidth {
      RoundIsNearest(screenWidth as real * HeightPerWidth(s));
    }
  }

  /** The height correction fires exactly when the size is taller than the
      screen; it then takes the screen height and re-derives the width from
      the aspect ratio. */
  lemma HeightCorrection(screenHeight: int, s: Settings, d: Dimensions)
    requires Usable(s)
    ensures var r := FitHeight(screenHeight, s, d);
      (d.height <= screenHeight ==> r == d) &&
      (d.height > screenHeight ==>
        r.height == screenHeight &&
        screenHeight as real * WidthPerHeight(s) - 0.5 < r.width as real <= screenHeight as real * WidthPerHeight(s) + 0.5)
  {
    if d.height > screenHeight {
      RoundIsNearest(screenHeight as real * WidthPerHeight(s));
    }
  }

  /** The final width stays within the screen whenever the height correction
      does not fire. */
  lemma WidthFitsUnlessHeightCorrected(screenWidth: int, screenHeight: int, s: Settings)
    requires Usable(s)
    requires FitWidth(screenWidth, s, InitialSize(screenWidth, s)).height <= screenHeight
    ensures WindowDimensions(screenWidth, screenHeight, s).width <= screenWidth
  {
  }

  /** With only one correction pass, the height correction can push the
      width back above the screen width: on a 1000x200 screen at 50% with
      a 16:1 ratio the popup is 3200 pixels wide. */
  lemma WidthCanExceedScreen()
    ensures var d := WindowDimensions(1000, 200, Settings(50, Some(16.0), Some(1.0), WindowMode));
      d == Dimensions(3200, 200) && d.width > 1000
  {
    var s := Settings(50, Some(16.0), Some(1.0), WindowMode);
    assert Round(1000.0 * (50.0 / 100.0)) == 500;
    assert HeightPerWidth(s) == 1.0 / 16.0;
    assert Round(500.0 * (1.0 / 16.0)) == 31;
    assert InitialSize(1000, s) == Dimensions(500, 240);
    assert FitWidth(1000, s, Dimensions(500, 240)) == Dimensions(500, 240);
    assert WidthPerHeight(s) == 16.0;
    assert Round(200.0 * 16.0) == 3200;
  }

  /** Default settings on a 1920x1080 screen: a 960x720 popup. */
  lemma DefaultSizeOnFullHd()
    ensures WindowDimensions(1920, 1080, DefaultSettings) == Dimensions(960, 720)
  {
    assert Round(1920.0 * (50.0 / 100.0)) == 960;
    assert HeightPerWidth(DefaultSettings) == 3.0 / 4.0;
    assert Round(960.0 * (3.0 / 4.0)) == 720;
  }

  /** A narrow screen: the width is raised to its minimum and the height,
      derived from the unclamped width, to its own: a 320x240 popup. */
  lemma MinimumSizeOnNarrowScreen()
    ensures WindowDimensions(400, 1080, DefaultSettings) == Dimensions(320, 240)
  {
    assert Round(400.0 * (50.0 / 100.0)) == 200;
    assert HeightPerWidth(DefaultSettings) == 3.0 / 4.0;
    assert Round(200.0 * (3.0 / 4.0)) == 150;
  }

  /** A full-screen square popup on a 1920x1080 screen is cut to 1080x1080
      by the height correction. */
  lemma SquareFullScreen()
    ensures WindowDimensions(1920, 1080, Settings(100, Some(1.0), Some(1.0), WindowMode)) == Dimensions(1080, 1080)
  {
    var s := Settings(100, Some(1.0), Some(1.0), WindowMode);
    assert Round(1920.0 * (100.0 / 100.0)) == 1920;
    assert HeightPerWidth(s) == 1.0 && WidthPerHeight(s) == 1.0;
    assert Round(1920.0 * 1.0) == 1920;
    assert Round(1080.0 * 1.0) == 1080;
  }
}
