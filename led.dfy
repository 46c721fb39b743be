/** The LED policy of `update_led` (main.c:53-59). */
module Led {

  /** `sizeof(unsigned int)` on the ABIs the daemon is built for (ILP32 and LP64). */
  const UNSIGNED_INT_SIZE: nat := 4

  /**
   * The brightness the daemon asks for after a reconnect and after a long press:
   * `sizeof(unsigned int) >> 1`, a right shift by one, so 2 rather than a
   * mid-range brightness.
   */
  const REFRESH_LEVEL: nat := UNSIGNED_INT_SIZE / 2

  /**
   * The value `update_led(requested)` writes: the LED is forced off while the
   * daemon is muted or in movie mode, and shows the requested level otherwise.
   */
  function LedValue(muted: bool, movieMode: bool, requested: nat): (value: nat)
    ensures value <= requested
    ensures value == 0 <==> muted || movieMode || requested == 0
    ensures value != 0 ==> value == requested
  {
    if muted || movieMode then 0 else requested
  }
}
