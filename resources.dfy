/** Host-platform values the dial works with: string resource ids, colour
    words and the styled attributes a layout can set on the view. */
module Resources {

  /** The string resources the dial refers to (`R.string.*`). Their texts
      live in the host's resource tables and are looked up through `Strings`. */
  datatype StringRes = FanOff | FanLow | FanMedium | FanHigh | Change | Reset

  /** The host's resource lookup (`getString`), given to the view. */
  type Strings = StringRes -> string

  /** A colour as the platform passes it around: a 32-bit signed Int holding
      an ARGB word. */
  newtype ColorInt = x: int | -0x8000_0000 <= x < 0x8000_0000

  /** `Color.GRAY`, the ARGB word 0xFF888888 read as a signed Int. */
  const Gray: ColorInt := -7829368

  /** The three colour attributes of the `DialView` styleable. */
  datatype StyleAttr = FanColor1 | FanColor2 | FanColor3

  /** The attributes a layout sets on the view; an attribute it does not set
      is absent (a view built without an attribute set has none). */
  type AttributeSet = map<StyleAttr, ColorInt>

  /** `getColor(index, default)` on the styled attributes: the value the
      layout set, or the default when it set none. */
  function GetColor(attrs: AttributeSet, a: StyleAttr, default: ColorInt): ColorInt
  {
    if a in attrs then attrs[a] else default
  }
}
