/** Colours as the scene file writes them. */
module Colors {
  /** A red, green, blue and alpha quadruple. */
  datatype Rgba = Rgba(r: real, g: real, b: real, a: real)
}
