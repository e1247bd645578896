/** Bytes as the multiplexer sees them, and the three byte values it treats specially. */
module Bytes {

  /** An 8-bit value as held in a C `char` buffer; only equality is ever used on it. */
  newtype byte = x: int | 0 <= x < 256

  /** Line feed, `'\n'`. */
  const LF: byte := 10

  /** Carriage return, `'\r'`. */
  const CR: byte := 13

  /** The plus sign, `'+'`. */
  const PLUS: byte := 43
}
