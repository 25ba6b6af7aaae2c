/** The `TShirtCustomizer` component's state (its `useState` fields, src/App.jsx,
    lines 8-18) and the event handlers that update it. */
module Customizer {
  import opened Wrappers
  import opened Sizing
  import opened Geometry
  import opened ThemeRegistry

  /** The longest text the text field accepts. */
  const MaxTextLength: nat := 15

  /** The shirt colour swatches, in the order they are offered. */
  const ShirtColors: seq<string> := ["black", "white", "red", "green", "yellow"]

  /** The values of the text colour options. */
  const TextColors: seq<string> := ["white", "black", "#FF0000", "#00FF00", "#0000FF"]

  /** The measurement form's options and its default values. */
  const HeightOptions: seq<string> := ["160cm", "170cm", "180cm", "190cm", "200cm"]
  const WeightOptions: seq<string> := ["60kg", "70kg", "80kg", "90kg", "100kg"]
  const BuildOptions: seq<string> := ["lean", "regular", "athletic", "big"]

  datatype Measurements = Measurements(height: string, weight: string, build: string)

  const DefaultMeasurements := Measurements("180cm", "80kg", "athletic")

  /** The drop zone's limits on what reaches `onDrop`. */
  const MaxFiles: nat := 1
  const MaxFileSize: nat := 5 * 1024 * 1024

  /** A file handed to `onDrop`; its contents are read by the browser, not by this model. */
  datatype File = File(name: string, size: nat)

  /** Every default of the measurement form is one of the options that field offers. */
  lemma DefaultMeasurementsOffered()
    ensures DefaultMeasurements.height in HeightOptions
    ensures DefaultMeasurements.weight in WeightOptions
    ensures DefaultMeasurements.build in BuildOptions
  {
  }

  /** The swatches are distinct, so a shirt colour taken from them marks exactly
      one swatch as active. */
  lemma ExactlyOneSwatchActive(color: string)
    requires color in ShirtColors
    ensures exists i :: (0 <= i < |ShirtColors| && ShirtColors[i] == color &&
                         forall j :: 0 <= j < |ShirtColors| && ShirtColors[j] == color ==> j == i)
  {
  }

  class TShirtCustomizer {
    var theme: ThemeIndex
    var previewImage: Option<string>
    var displayText: string
    var textSize: Percent
    var imageSize: Percent
    var textColor: string
    var textBackground: bool
    var shirtColor: string
    var textPosition: Position
    var imagePosition: Position
    var hasText: bool

    /** The component's invariant: the text respects the cap, `hasText` tells
        whether there is text, and both colours are ones the controls offer. */
    ghost predicate Valid()
      reads this
    {
      && |displayText| <= MaxTextLength
      && (hasText <==> |displayText| > 0)
      && textColor in TextColors
      && shirtColor in ShirtColors
    }

    /** The initial `useState` values. */
    constructor ()
      ensures Valid()
      ensures theme == 0 && previewImage == None
      ensures displayText == "" && !hasText
      ensures textSize == DefaultPercent && imageSize == DefaultPercent
      ensures textColor == "white" && !textBackground && shirtColor == "black"
      ensures textPosition == Origin && imagePosition == Origin
    {
      theme := 0;
      previewImage := None;
      displayText := "";
      textSize := DefaultPercent;
      imageSize := DefaultPercent;
      textColor := "white";
      textBackground := false;
      shirtColor := "black";
      textPosition := Origin;
      imagePosition := Origin;
      hasText := false;
    }

    /** `handleTextChange`: an input within the cap replaces the text; a longer
        input is refused and leaves the text as it was. */
    method HandleTextChange(input: string)
      requires Valid()
      modifies this`displayText, this`hasText
      ensures Valid()
      ensures |input| <= MaxTextLength ==> displayText == input && (hasText <==> |input| > 0)
      ensures |input| > MaxTextLength ==> displayText == old(displayText) && hasText == old(hasText)
    {
      if |input| <= MaxTextLength {
        displayText := input;
        hasText := |input| > 0;
      }
    }

    /** `handleKeyDown`: Alt+Q advances the theme circularly; every other key is ignored. */
    method HandleKeyDown(e: KeyEvent)
      requires Valid()
      modifies this`theme
      ensures Valid()
      ensures theme == KeyDownTheme(old(theme), e)
    {
      if e.altKey && ToLower(e.key) == "q" {
        theme := (theme + 1) % |Themes|;
      }
    }

    /** `onDrop`: an empty list of accepted files is ignored; otherwise the first
        file is the one whose read is started. No state changes here: the image
        is stored by `OnImageLoaded` when the read completes. */
    method OnDrop(acceptedFiles: seq<File>) returns (pending: Option<File>)
      requires |acceptedFiles| <= MaxFiles
      requires forall f :: f in acceptedFiles ==> f.size <= MaxFileSize
      ensures pending.None? <==> acceptedFiles == []
      ensures pending.Some? ==> pending.value == acceptedFiles[0] && pending.value.size <= MaxFileSize
    {
      if |acceptedFiles| == 0 {
        return None;
      }
      var file := acceptedFiles[0];
      pending := Some(file);
    }

    /** `reader.onload`: the data URI read from the dropped file replaces any earlier image. */
    method OnImageLoaded(dataUri: string)
      requires Valid()
      modifies this`previewImage
      ensures Valid()
      ensures previewImage == Some(dataUri)
    {
      previewImage := Some(dataUri);
    }

    /** A shirt colour swatch was clicked. */
    method SetShirtColor(color: string)
      requires Valid() && color in ShirtColors
      modifies this`shirtColor
      ensures Valid() && shirtColor == color
    {
      shirtColor := color;
    }

    /** The image size slider moved. */
    method SetImageSize(value: Percent)
      requires Valid()
      modifies this`imageSize
      ensures Valid() && imageSize == value
    {
      imageSize := value;
    }

    /** The text size slider moved. */
    method SetTextSize(value: Percent)
      requires Valid()
      modifies this`textSize
      ensures Valid() && textSize == value
    {
      textSize := value;
    }

    /** A text colour option was selected. */
    method SetTextColor(color: string)
      requires Valid() && color in TextColors
      modifies this`textColor
      ensures Valid() && textColor == color
    {
      textColor := color;
    }

    /** The text background checkbox changed. */
    method SetTextBackground(checked: bool)
      requires Valid()
      modifies this`textBackground
      ensures Valid() && textBackground == checked
    {
      textBackground := checked;
    }

    /** The font size recomputed on each render, in pixels. */
    function FontSize(): (px: real)
      reads this
      ensures TextFontMin <= px <= TextFontMax
    {
      TextFontSize(textSize)
    }

    /** The image width recomputed on each render, as a percentage. */
    function ImageWidth(): (w: real)
      reads this
      ensures ImageWidthMin <= w <= ImageWidthMax
    {
      ImageWidthPercentage(imageSize)
    }

    /** The name shown in the footer for the active theme. */
    function ThemeName(): (name: string)
      reads this
      ensures name == "Minimal" || name == "Dark" || name == "Vintage"
    {
      Themes[theme].name
    }
  }

  /** Three Alt+Q presses on a component bring back the theme it started with,
      and change nothing else. */
  method CycleThemesThrice(c: TShirtCustomizer)
    requires c.Valid()
    modifies c`theme
    ensures c.Valid() && c.theme == old(c.theme)
  {
    var altQ := KeyEvent(true, "Q");
    ThemeShortcutKeys(altQ);
    c.HandleKeyDown(altQ);
    c.HandleKeyDown(altQ);
    c.HandleKeyDown(altQ);
    PressesAdvance(old(c.theme), 3);
  }
}
