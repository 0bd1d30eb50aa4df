/**
 * What the two decibel screens show for a published level: the meter and the reading
 * take their colour from `ColorFor`, and the description line is `DescriptionFor`'s
 * label. The desktop screen shows that line only for a positive level; the phone
 * screen always shows it.
 */
module Views {
  import opened Wrappers
  import opened Bands
  import Levels

  /** The parts of a screen that depend on the level. */
  datatype Screen = Screen(meterColor: Color, description: Option<string>, readingColor: Color)

  /** The desktop screen: the description line sits behind `if decibels > 0`. */
  function DesktopScreen(decibels: real): (s: Screen)
    ensures s.description.Some? <==> decibels > 0.0
    ensures s.description.Some? ==> s.description.value == Label(DescriptionFor(decibels))
    ensures s.meterColor == s.readingColor == ColorFor(decibels)
  {
    var color := ColorFor(decibels);
    Screen(color, if decibels > 0.0 then Some(Label(DescriptionFor(decibels))) else None, color)
  }

  /** The phone screen: the description line is always there. */
  function PhoneScreen(decibels: real): (s: Screen)
    ensures s.description == Some(Label(DescriptionFor(decibels)))
    ensures s.meterColor == s.readingColor == ColorFor(decibels)
  {
    var color := ColorFor(decibels);
    Screen(color, Some(Label(DescriptionFor(decibels))), color)
  }

  /** The screens differ only in the description line, and only at levels up to 0. */
  lemma ScreensAgreeAbove0(decibels: real)
    ensures decibels > 0.0 <==> DesktopScreen(decibels) == PhoneScreen(decibels)
    ensures DesktopScreen(decibels).meterColor == PhoneScreen(decibels).meterColor
  {
  }

  /**
   * At the initial level 0 the phone already reads rustling leaves, with the accent
   * colour, while the desktop shows no description.
   */
  lemma AtSilence()
    ensures PhoneScreen(0.0).description == Some("Hojas crujiendo, susurrando")
    ensures DesktopScreen(0.0).description == None
    ensures PhoneScreen(0.0).meterColor == Accent
  {
  }

  /**
   * For the level of a tick, the desktop hides its description exactly when the
   * recorder reported the floor of the metering range or less.
   */
  lemma DesktopHidesSilence(averagePower: real)
    ensures DesktopScreen(Levels.Level(averagePower)).description.None?
            <==> averagePower <= Levels.MinDecibels
  {
  }

  /** The phone screen describes every level by its band under the effective thresholds. */
  lemma PhoneDescriptionTable(decibels: real)
    ensures PhoneScreen(decibels).description
            == Some(Label(Descriptions[CountAtMost(DescriptionBounds, decibels)]))
  {
    DescriptionByBand(decibels);
  }

  /** The phone screen colours every level by its band. */
  lemma PhoneColorTable(decibels: real)
    ensures PhoneScreen(decibels).meterColor == Colors[CountAtMost(ColorBounds, decibels)]
  {
    ColorByBand(decibels);
  }
}
