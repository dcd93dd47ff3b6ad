/** The enumerated options of the player and the integer width they use. */
module Settings {

  /** Rust's `i32`. */
  type i32 = x: int | -0x8000_0000 <= x < 0x8000_0000

  /** Selects the base tone-unit duration. */
  datatype TextType = Letters | Digits | Mixed

  /** Selects the speed ramp; `NoModification` is the source's `None`. */
  datatype SpeedModification = NoModification | Speedup | Slowing | Zigzag

  /** Selects the preamble and postamble; `NoAdditions` is the source's `None`. */
  datatype TextAdditions = NoAdditions | Training | Competitions

  /** Truncation toward zero, as Rust's float-to-integer cast rounds. */
  function TruncToInt(x: real): (n: int)
    ensures 0.0 <= x ==> n as real <= x < n as real + 1.0
    ensures x < 0.0 ==> n as real - 1.0 < x <= n as real
  {
    if x >= 0.0 then x.Floor else -((-x).Floor)
  }

  /** Rust's saturating `as i32` on an integral value. */
  function SaturateI32(x: int): (n: i32)
    ensures -0x8000_0000 <= x < 0x8000_0000 ==> n == x
    ensures x < -0x8000_0000 ==> n == -0x8000_0000
    ensures 0x8000_0000 <= x ==> n == 0x7fff_ffff
  {
    if x < -0x8000_0000 then -0x8000_0000 else if x > 0x7fff_ffff then 0x7fff_ffff else x
  }
}
