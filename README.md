# LDOCE lookup extension — a Dafny model

The extension adds a context-menu entry "LDOCE: %s". Clicking it normalises
the selected text, builds a Longman Dictionary of Contemporary English URL and
opens it either in a new tab or in a popup window. The popup is then resized
from the screen size, a size percentage and an aspect ratio. A settings page
edits those values and the open mode.

This project models the deterministic logic of that flow:

- `Text` (`wrappers.dfy` holds the `Option` type): the normalisation
  `selectedText.trim().replace(/\s+/g, '-')`. `IsSpace` is JavaScript's `\s`
  class, which is also the set `trim` strips. `Words` and `JoinWithHyphens`
  give an independent description of the result: the whitespace-free words of
  the selection joined by single hyphens. The lemmas prove that the
  normalisation equals that description, contains no whitespace, keeps every
  non-whitespace character in order, and, for hyphen-free input, has no hyphen
  at either end and never two in a row.
- `Background`: the stored settings and their fallback on a failed read, the
  lookup URL, the tab-or-popup decision and the click handler. It also holds
  the popup-size calculation. That calculation is an imperative method with
  local variables (`CalculateWindowDimensions`). It runs three steps on those
  variables (`ScaleToScreen`, `ClampWidthToScreen`, `ClampHeightToScreen`),
  and each step is proved equal to one stage of a specification (`InitialSize`,
  `FitWidth`, `FitHeight`, composed in `WindowDimensions`). The
  properties of each stage are proved as lemmas, including the gap left by
  the single correction pass: the final width can exceed the screen width.
- `Options`: the aspect-ratio sanitiser, the mapping between the stored mode
  and the two radios, the visibility rule, and a `SettingsForm` class whose
  fields are the controls the handlers update.

Three facts about the code shape the model:

- The URL is hard-coded at background.js:10 as
  `https://ldoceonline.com/dictionary/<text>`.
- The initial height is derived from the unclamped width: line 47 runs before
  the minimum clamp at line 49.
- Both files use the same defaults: 50%, 4:3 and `'window'`.

Two behaviours of the code are proved rather than changed:

- The height correction can leave the width above the screen width (see
  `WidthCanExceedScreen`).
- A stored mode other than `'window'` or `'tab'` checks the window radio but
  hides the window settings (see `UnknownModeLoad`).

Arithmetic is over exact reals. `Math.round(x)` is `(x + 1/2).Floor`. A
`NaN` produced by `parseFloat` is `None`.

## Model

| member | source | states |
|---|---|---|
| `Text.TrimStart` | background.js:9 | the result is a suffix of the input, everything dropped is whitespace, and the result does not start with whitespace |
| `Text.TrimEnd` | background.js:9 | the result is a prefix of the input, everything dropped is whitespace, and the result does not end with whitespace |
| `Text.Trim` | background.js:9 | the trimmed text neither starts nor ends with whitespace |
| `Text.TrimKeepsMiddle` | background.js:9 | `trim` keeps one contiguous piece of the selection and drops only whitespace before and after it |
| `Text.CollapseSpaces` | background.js:9 | after replacing whitespace runs, the text contains no whitespace character |
| `Text.Normalize` | background.js:9 | the path segment built from the selection contains no whitespace character |
| `Text.NormalizeIsJoinedWords` | background.js:9 | the normalised selection is exactly its maximal whitespace-free words joined by single hyphens |
| `Text.WordsKeepNonSpaceChars` | background.js:9 | read in order, the words hold exactly the non-whitespace characters of the selection |
| `Text.NormalizeKeepsText` | background.js:9 | apart from hyphens, the output is exactly the input's non-whitespace characters in their order; for hyphen-free input, dropping hyphens from the output gives exactly those characters |
| `Text.JoinShape` | background.js:9 | joining non-empty hyphen-free words gives text with no hyphen at either end and no two hyphens in a row |
| `Text.NormalizeHyphenShape` | background.js:9 | for a selection without `-`, the normalised text neither starts nor ends with `-` and never contains `--` |
| `Background.UserSettings` | background.js:17-35 | a failed read yields exactly {windowSize 50, aspect 4:3, openMode 'window'}; otherwise the values storage returned |
| `Background.LookupUrl` | background.js:9-10 | the URL is `https://ldoceonline.com/dictionary/` followed by a whitespace-free segment equal to the selection's words joined by hyphens |
| `Background.LookupSelection` | background.js:78-99 | nothing happens iff the text is empty; a tab opens iff the text is non-empty and the mode is `'tab'`; any other mode opens a popup; the URL is passed through unchanged |
| `Background.OnMenuClick` | background.js:5-13 | no click data or an empty selection does nothing; otherwise the lookup opens the URL built from the selection, in a tab iff the mode is `'tab'` |
| `Background.WhitespaceSelectionOpensBareUrl` | background.js:9-11 | a non-empty whitespace-only selection passes the emptiness check and opens the bare `/dictionary/` URL |
| `Background.FailedReadOpensPopup` | background.js:26-33 | when the settings read fails, a non-empty selection opens a popup, since the fallback mode is `'window'`; a read that returns the default values leads to the same action |
| `Background.RoundIsNearest` | background.js:46-58 | `Math.round` lands in (x - 1/2, x + 1/2], and an argument exactly halfway between two integers rounds up |
| `Background.Round` | background.js:46-58 | `Math.round(x)` as `(x + 1/2).Floor`; its properties are stated by `RoundIsNearest` |
| `Background.InitialSizeAtLeastMinimums` | background.js:46-50 | after the minimum clamps, the width is at least 320 and the height at least 240 |
| `Background.InitialSize` | background.js:40-50 | the width is `Round(screenWidth * SizeRatio)` and the height `Round(width * HeightPerWidth)` from that unclamped width, each raised with `Max` to 320 and 240; `InitialSizeAtLeastMinimums` states the bounds and `ScaleToScreen` is proved equal to it |
| `Background.FitWidth` | background.js:52-55 | after the width correction the width is at most the screen width; a size within the screen width is left unchanged, and a wider one takes exactly the screen width |
| `Background.FitHeight` | background.js:56-59 | after the height correction the height is at most the screen height; a size within the screen height is left unchanged |
| `Background.WindowDimensions` | background.js:46-59 | the final height is at most the available screen height |
| `Background.ScaleToScreen` | background.js:46-50 | the local width and height after scaling and the minimum clamps equal `InitialSize` |
| `Background.ClampWidthToScreen` | background.js:52-55 | the local width and height after the width check equal `FitWidth` of the size before it |
| `Background.ClampHeightToScreen` | background.js:56-59 | the local width and height after the height check equal `FitHeight` of the size before it |
| `Background.CalculateWindowDimensions` | background.js:38-62 | the step-by-step computation equals `WindowDimensions` for the settings read, so the height fits the screen |
| `Background.NoCorrectionKeepsMinimums` | background.js:49-59 | when neither correction fires, the clamped size is the result, with width at least 320 and height at least 240 |
| `Background.WidthCorrection` | background.js:52-55 | the width correction fires only when the width exceeds the screen; it sets the screen width and a height within one half of screen width times height/width, rather than keeping the clamped height |
| `Background.HeightCorrection` | background.js:56-59 | the height correction fires only when the height exceeds the screen; it sets the screen height and a width within one half of screen height times width/height |
| `Background.WidthFitsUnlessHeightCorrected` | background.js:52-59 | when the height correction does not fire, the final width is at most the screen width |
| `Background.WidthCanExceedScreen` | background.js:56-59 | with one correction pass the width is not bounded by the screen: a 1000x200 screen at 50% and 16:1 gives 3200x200 |
| `Background.DefaultSizeOnFullHd` | background.js:38-62 | the default settings on a 1920x1080 screen give 960x720 |
| `Background.MinimumSizeOnNarrowScreen` | background.js:46-50 | the default settings on a 400x1080 screen give the minimum 320x240 |
| `Background.SquareFullScreen` | background.js:56-59 | 100% at 1:1 on a 1920x1080 screen is cut to 1080x1080 |
| `Options.SanitizeRatio` | options/options.js:77-78 | the result is at least 0.1; NaN or 0 gives 1; a value of at least 0.1 is kept; any other non-zero value gives 0.1 |
| `Options.SanitizeIdempotent` | options/options.js:77-82 | the written-back value sanitises to itself |
| `Options.RadiosForMode` | options/options.js:36-42 | loading checks exactly one radio, the tab radio iff the stored mode is `'tab'` |
| `Options.ModeFromRadios` | options/options.js:53 | the mode read from the form is `'window'` iff the window radio is checked, otherwise `'tab'` |
| `Options.WindowSettingsHidden` | options/options.js:59-65 | the window settings are hidden iff the mode is not `'window'` |
| `Options.KnownModeRoundTrip` | options/options.js:36-45 | for `'window'` and `'tab'`, loading then reading the radios gives the stored mode back, and the panel is hidden iff the window radio is unchecked |
| `Options.RadiosRoundTrip` | options/options.js:88-97 | saving the mode of radios with one checked and loading it again restores the same radios |
| `Options.UnknownModeLoad` | options/options.js:36-45 | any other stored mode checks the window radio but hides the window settings, and reads back as `'window'` |
| `Options.SettingsForm.SavedSettings` | options/options.js:88-97 | the saved object carries the form's slider and aspect values, and its mode is `'window'` iff the window radio is checked and `'tab'` otherwise |
| `Options.SettingsForm.LoadSettings` | options/options.js:21-49 | a failed read changes nothing; otherwise the fields take the stored values, exactly one radio is checked, and for a known mode the form is consistent |
| `Options.SettingsForm.HandleModeChange` | options/options.js:52-56 | the panel becomes hidden iff the window radio is unchecked, and the form's settings are saved |
| `Options.SettingsForm.HandleSizeChange` | options/options.js:68-72 | the form's settings are saved as they stand |
| `Options.SettingsForm.HandleRatioChange` | options/options.js:75-85 | both aspect boxes hold their sanitised values, and the saved ratio is at least 0.1 on each side, a safe divisor |
| `Options.SavedModeDecidesLookup` | options/options.js:88-97 | the saved mode makes the next lookup open a tab iff the window radio was unchecked, and a popup otherwise |
| `Options.SanitizedRatioUsable` | options/options.js:77-84 | settings carrying sanitised aspect values satisfy the size calculation's precondition |

## Left out

- All `browser.*` host calls are not modelled: menu registration, `storage.sync.get/set`, `tabs.create`, `windows.create/update`. A storage read is a parameter that either returns the settings or fails. A save is the settings object the handler returns. A lookup is the `Action` it would perform.
- The host fills missing storage keys with the defaults passed to `storage.sync.get`. The model takes the completed settings as the read's result.
- DOM access, event-listener registration, the `sizeDisplay` text and `console.error` logging are UI wiring.
- The browser's own radio-group exclusivity and the slider's range clamping are not modelled.
- `async`/`await` ordering is left out. In popup mode the settings are read twice, once to choose the mode and once to size the window. The model treats these as two independent reads.
- IEEE-754 arithmetic is not modelled: numbers are exact reals. `parseFloat`/`parseInt` text parsing is not modelled either: a box holds its parsed value, and the slider holds an integer.
- Values of the wrong JavaScript type in storage are not modelled. The settings fields are typed.
- A click whose data has no `selectionText` (where `trim` would throw) is not modelled. The click data is either absent or a string.
- Background.CalculateWindowDimensions: requires positive aspect values, so JavaScript's division by zero (`Infinity`/`NaN` sizes) is not modelled. The settings page guarantees at least 0.1 on each side (`HandleRatioChange`). The same precondition is on its three steps and on the stage functions.
