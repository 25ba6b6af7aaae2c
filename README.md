# T-shirt customizer: a verified model of the editor state

This project models the logic of the `TShirtCustomizer` React component in Dafny.
The component is a single-page t-shirt designer. The user picks a shirt colour,
drops an image, types up to 15 characters of text, sizes both overlays with
sliders, and cycles the colour theme with Alt+Q.

The model has five modules:

- `Wrappers` (wrappers.dfy): `Option`, used for the nullable preview image, the
  unmounted shirt element and an empty drop.
- `Sizing` (sizing.dfy): `calculateSize`, the linear interpolation of a slider
  percentage, and the two sizes derived from it: the text font size in
  [14, 32] px and the image width in [20, 40] %. JavaScript doubles are modelled
  as exact reals, which is an idealisation.
- `Geometry` (geometry.dfy): `getShirtBounds`, the drag constraints. They form a
  box centred on the shirt, or the empty object `{}` while the shirt element
  is not mounted.
- `ThemeRegistry` (themes.dfy): the three named themes, the key handler's
  condition (`e.altKey && e.key.toLowerCase() === 'q'`) and the updater
  `(prev + 1) % themes.length`.
- `Customizer` (customizer.dfy): the class `TShirtCustomizer`. Its fields are the
  component's `useState` values. Its methods are the event handlers and setters,
  and each one names in `modifies` only the fields it writes. `Valid()` is the
  component invariant: at most 15 characters of text, `hasText` exactly when
  the text is non-empty, and both colours taken from the offered options. The
  constructor establishes `Valid()` and every handler preserves it.

Two facts about the source that the model keeps:

- At the default `textSize` of 50 the text is 23px, and at the default
  `imageSize` of 50 the image is 30 % wide (`Sizing.DefaultSizes`).
- The component never clamps stored positions. It passes the shirt's bounds to
  the drag library as `dragConstraints`, and its `onDrag` handlers store
  `info.point` as it arrives.

## Model

| member | source | states |
|---|---|---|
| `Sizing.CalculateSize` | src/App.jsx:65-67 | a value of 0 gives `min`, a value of 100 gives `max`, and for `min <= max` every value in [0, 100] gives a result in [min, max] |
| `Sizing.CalculateSizeMonotonic` | src/App.jsx:65-67 | for `min <= max`, a larger percentage never gives a smaller size |
| `Sizing.CalculateSizeStrictlyIncreasing` | src/App.jsx:65-67 | for `min < max`, a larger percentage gives a strictly larger size |
| `Sizing.TextFontSize` | src/App.jsx:69 | the text font size lies in [14, 32] px and equals 14 + p × 18 / 100 |
| `Sizing.ImageWidthPercentage` | src/App.jsx:70 | the image width lies in [20, 40] % and equals 20 + p × 20 / 100 |
| `Sizing.SliderEndpoints` | src/App.jsx:65-70 | slider 0 gives 14px and 20 %; slider 100 gives 32px and 40 % |
| `Sizing.DerivedSizesStrictlyIncreasing` | src/App.jsx:69-70 | both derived sizes grow strictly as their slider grows |
| `Sizing.DefaultSizes` | src/App.jsx:11-12 | the default slider value 50 gives 23px text and a 30 % wide image |
| `Geometry.GetShirtBounds` | src/App.jsx:122-133 | the bounds are `{}` exactly when there is no shirt element; otherwise `left = -right`, `top = -bottom`, and the box is as wide and tall as the measured rectangle |
| `Geometry.OriginWithinShirtBounds` | src/App.jsx:122-133 | the overlays' initial position (0, 0) lies inside the bounds of any measured shirt |
| `Geometry.WithinShirtBounds` | src/App.jsx:122-133 | a position lies inside a measured w × h shirt's bounds exactly when abs(x) <= w/2 and abs(y) <= h/2 |
| `ThemeRegistry.ToLower` | src/App.jsx:82 | lower-casing keeps the length and maps each character on its own |
| `ThemeRegistry.NextTheme` | src/App.jsx:83 | the updater moves to the next theme, and from the last theme wraps to the first |
| `ThemeRegistry.KeyDownTheme` | src/App.jsx:81-85 | the theme changes if and only if Alt is held and the key is "q" or "Q", and when it changes it moves to the next theme; the result is always a valid index |
| `ThemeRegistry.ThemeShortcutKeys` | src/App.jsx:82 | an event is the shortcut exactly when Alt is held and the key is "q" or "Q" |
| `ThemeRegistry.PressesAdvance` | src/App.jsx:83 | n presses of the shortcut move the theme index from t to (t + n) mod 3 |
| `ThemeRegistry.FullCycleRestoresTheme` | src/App.jsx:83 | pressing the shortcut once per theme (three times) returns to the starting theme |
| `ThemeRegistry.ShortCycleChangesTheme` | src/App.jsx:83 | one or two presses always land on a different theme |
| `Customizer.ExactlyOneSwatchActive` | src/App.jsx:151-155 | the five swatches are distinct, so a shirt colour taken from them marks exactly one swatch as active |
| `Customizer.DefaultMeasurementsOffered` | src/App.jsx:24-30 | each default measurement (180cm, 80kg, athletic) is one of its field's options |
| `Customizer.TShirtCustomizer.constructor` | src/App.jsx:8-18 | the initial state is the `useState` defaults, and it satisfies the invariant |
| `Customizer.TShirtCustomizer.HandleTextChange` | src/App.jsx:72-78 | an input of at most 15 characters becomes the text, with `hasText` true exactly when it is non-empty; a longer input is refused and both fields keep their old values; no other field changes; the invariant is preserved |
| `Customizer.TShirtCustomizer.HandleKeyDown` | src/App.jsx:81-85 | the theme becomes `KeyDownTheme` of the old theme and the event; no other field changes |
| `Customizer.TShirtCustomizer.OnDrop` | src/App.jsx:90-92 | an empty drop yields no pending read; otherwise the pending read is for the first accepted file; the component's state does not change |
| `Customizer.TShirtCustomizer.OnImageLoaded` | src/App.jsx:95 | the finished read's data URI replaces the preview image; no other field changes |
| `Customizer.TShirtCustomizer.SetShirtColor` | src/App.jsx:154 | the shirt colour becomes the clicked swatch, which is one of the offered colours; no other field changes |
| `Customizer.TShirtCustomizer.SetImageSize` | src/App.jsx:320 | the image size becomes the slider value, which is within [0, 100] |
| `Customizer.TShirtCustomizer.SetTextSize` | src/App.jsx:360 | the text size becomes the slider value, which is within [0, 100] |
| `Customizer.TShirtCustomizer.SetTextColor` | src/App.jsx:371 | the text colour becomes the selected option's value |
| `Customizer.TShirtCustomizer.SetTextBackground` | src/App.jsx:389 | the background flag becomes the checkbox state |
| `Customizer.TShirtCustomizer.FontSize` | src/App.jsx:69 | the font size rendered for the current state is within [14, 32] px |
| `Customizer.TShirtCustomizer.ImageWidth` | src/App.jsx:70 | the image width rendered for the current state is within [20, 40] % |
| `Customizer.TShirtCustomizer.ThemeName` | src/App.jsx:409 | the footer's theme name is one of Minimal, Dark and Vintage |
| `Customizer.CycleThemesThrice` | src/App.jsx:81-85 | three Alt+Q events on a component restore its theme and change no other field |

## Left out

- Rendering: the JSX, the Tailwind class strings, the theme style tokens, the icons and the placeholder text (src/App.jsx:135-415). Apart from the text field's `maxLength`, described next, they are presentation only.
- The text field's `maxLength={15}` (src/App.jsx:340). The browser applies it before `handleTextChange` runs: typing stops at 15 UTF-16 code units, and a longer paste is cut to its first 15. So the component as a whole truncates a long paste, while `HandleTextChange` models only the handler, which refuses any input longer than 15.
- File acceptance (src/App.jsx:99-104): the drop zone library matches MIME types and extensions, and that matching is not part of this model. `OnDrop` assumes its limits only as preconditions: at most one file, each of at most 5 MB.
- The FileReader conversion of a file into a data URI (src/App.jsx:94-96). It is asynchronous browser I/O. `OnImageLoaded` takes the finished result as a parameter. `OnImageLoaded` may be called in any order and the last call wins, which is the source's unguarded behaviour when an older read finishes after a newer one.
- The `onDrag` position writes (src/App.jsx:191-193, 224-226). They store `info.point`, the pointer coordinates the drag library reports, and nothing clamps them. The library limits how the element moves, but not these stored values. In the model the position fields keep their initial value (0, 0).
- Attaching and removing the global keydown listener (src/App.jsx:86-87), and the registration of the measurement selects with the form library (src/App.jsx:24-30, 261). Only the default measurements and their options are modelled, as constants.
- Submission (src/App.jsx:106-120). It only logs and shows an alert.
- Floating point: sizes are exact reals, not IEEE-754 doubles.
- `ThemeRegistry.ToLower` maps only the ASCII letters A-Z. It does not model the full Unicode case mapping of `toLowerCase`.
- `Customizer.TShirtCustomizer.HandleTextChange` counts length in Unicode characters, not in the UTF-16 code units of JavaScript's `length`. The two differ for characters outside the Basic Multilingual Plane.
- Slider and select values: `parseInt` of a range input is modelled as an integer in [0, 100] (`Sizing.Percent`). The select and the swatches are modelled as handing over one of their offered values.
