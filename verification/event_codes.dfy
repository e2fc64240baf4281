/**
 * Kernel input events as the daemon sees them through evdev: an event code
 * (event type plus code within that type), a value and a timestamp split into
 * seconds and microseconds. The numeric codes are those of the Linux header
 * input-event-codes.h; only the ones the daemon names are given a constant.
 */
module EventCodes {

  const EV_KEY: nat := 1

  /** An evdev event code: the event type together with the code inside it. */
  datatype EventCode = EventCode(evType: nat, code: nat)

  const KEY_POWER: EventCode := EventCode(EV_KEY, 116)
  const BTN_SOUTH: EventCode := EventCode(EV_KEY, 0x130)
  const BTN_EAST: EventCode := EventCode(EV_KEY, 0x131)
  const BTN_NORTH: EventCode := EventCode(EV_KEY, 0x133)
  const BTN_WEST: EventCode := EventCode(EV_KEY, 0x134)
  const BTN_TL: EventCode := EventCode(EV_KEY, 0x136)
  const BTN_TR: EventCode := EventCode(EV_KEY, 0x137)
  const BTN_TL2: EventCode := EventCode(EV_KEY, 0x138)
  const BTN_TR2: EventCode := EventCode(EV_KEY, 0x139)
  const BTN_DPAD_UP: EventCode := EventCode(EV_KEY, 0x220)
  const BTN_DPAD_DOWN: EventCode := EventCode(EV_KEY, 0x221)
  const BTN_DPAD_LEFT: EventCode := EventCode(EV_KEY, 0x222)
  const BTN_DPAD_RIGHT: EventCode := EventCode(EV_KEY, 0x223)
  const BTN_TRIGGER_HAPPY2: EventCode := EventCode(EV_KEY, 0x2c1)
  const BTN_TRIGGER_HAPPY3: EventCode := EventCode(EV_KEY, 0x2c2)
  const BTN_TRIGGER_HAPPY4: EventCode := EventCode(EV_KEY, 0x2c3)
  const BTN_TRIGGER_HAPPY5: EventCode := EventCode(EV_KEY, 0x2c4)
  const BTN_TRIGGER_HAPPY6: EventCode := EventCode(EV_KEY, 0x2c5)

  /** The value of a key press (0 is a release, 2 an autorepeat). */
  const PRESS: int := 1

  /**
   * One input event: its code, its value and its timestamp
   * (time.tv_sec, time.tv_usec).
   */
  datatype InputEvent = InputEvent(code: EventCode, value: int, sec: int, usec: int)

  /** The bounds of Rust's i64, which is what time_t and suseconds_t are here. */
  const I64_MIN: int := -0x8000_0000_0000_0000
  const I64_MAX: int := 0x7fff_ffff_ffff_ffff

  predicate InI64(x: int) {
    I64_MIN <= x <= I64_MAX
  }

  /** Two's-complement wrap-around of an integer into the i64 range. */
  function WrapI64(x: int): (r: int)
    ensures InI64(r)
    ensures (r - x) % 0x1_0000_0000_0000_0000 == 0
    ensures InI64(x) ==> r == x
  {
    (x - I64_MIN) % 0x1_0000_0000_0000_0000 + I64_MIN
  }
}
