// The settings of the HSL colouring mode.
module HslSettings {

  const MAX_HSL_VALUE: int := 100

  datatype HslSettings = HslSettings(
    enabled: bool,
    saturation: int,
    lum: int,
    hueOffset: int,
    smoothness: int)

  /** `HSLSettings::default()`. */
  const DEFAULT_HSL: HslSettings := HslSettings(false, 64, 48, 69, 5)

  predicate NumbersInRange(h: HslSettings)
  {
    0 <= h.saturation < MAX_HSL_VALUE && 0 <= h.lum < MAX_HSL_VALUE
    && 0 <= h.hueOffset < MAX_HSL_VALUE && 0 <= h.smoothness < MAX_HSL_VALUE
  }

  /** HSL mode is off by default and every default number lies in [0, MAX_HSL_VALUE). */
  lemma DefaultIsOffAndInRange()
    ensures !DEFAULT_HSL.enabled && NumbersInRange(DEFAULT_HSL)
    ensures DEFAULT_HSL.saturation == 64 && DEFAULT_HSL.lum == 48
    ensures DEFAULT_HSL.hueOffset == 69 && DEFAULT_HSL.smoothness == 5
  {
  }
}
