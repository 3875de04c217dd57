/**
 * raylib's `Color`, four 8-bit channels, and the named colours the core uses,
 * with the channel values of raylib's own definitions.
 */
module Colors {

  /** An 8-bit channel value. */
  newtype uint8 = x: int | 0 <= x < 256

  /** `rl.Color`: red, green, blue and alpha. */
  datatype Color = Color(R: uint8, G: uint8, B: uint8, A: uint8)

  const WHITE: Color := Color(255, 255, 255, 255)
  const LIGHT_GRAY: Color := Color(200, 200, 200, 255)
  const GRAY: Color := Color(130, 130, 130, 255)
  const DARK_GRAY: Color := Color(80, 80, 80, 255)
  const BLACK: Color := Color(0, 0, 0, 255)
  const RED: Color := Color(230, 41, 55, 255)
  const ORANGE: Color := Color(255, 161, 0, 255)
  const GOLD: Color := Color(255, 203, 0, 255)
  const GREEN: Color := Color(0, 228, 48, 255)
  const BLUE: Color := Color(0, 121, 241, 255)
  const DARK_BLUE: Color := Color(0, 82, 172, 255)
  const PURPLE: Color := Color(200, 122, 255, 255)
  const SKY_BLUE: Color := Color(102, 191, 255, 255)
}
