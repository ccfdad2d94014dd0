/**
 * Fixed-width machine integers of the firmware and the cues it plays.
 *
 * Timestamps on the board are `uint32_t` values read from the microsecond
 * timer (divided down to milliseconds or seconds), the training score is a
 * `uint32_t` and the completed-session counter a `uint8_t`. Their arithmetic
 * wraps, and the model writes that wrap-around out.
 */
module Common {

  const TwoTo32: int := 0x1_0000_0000
  const TwoTo8: int := 0x100

  /** A `uint32_t` value. */
  type U32 = x: int | 0 <= x < 0x1_0000_0000

  /** A `uint8_t` value. */
  type Byte = x: int | 0 <= x < 0x100

  /** `a - b` computed in `uint32_t` arithmetic, as in `current_time - last_button_time`. */
  function Sub32(a: U32, b: U32): (r: U32)
    ensures b <= a ==> r == a - b
    ensures a < b ==> r == a - b + TwoTo32
  {
    (a - b) % TwoTo32
  }

  /** `x + 1` computed in `uint32_t` arithmetic. */
  function Inc32(x: U32): (r: U32)
    ensures x < TwoTo32 - 1 ==> r == x + 1
    ensures x == TwoTo32 - 1 ==> r == 0
  {
    (x + 1) % TwoTo32
  }

  /** `x++` on a `uint8_t`. */
  function Inc8(x: Byte): (r: Byte)
    ensures x < TwoTo8 - 1 ==> r == x + 1
    ensures x == TwoTo8 - 1 ==> r == 0
  {
    (x + 1) % TwoTo8
  }

  /** The audible cues: `beep`, `tocar_sucesso` and `tocar_erro`. */
  datatype Cue = Beep | Success | Failure
}
