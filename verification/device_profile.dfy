/**
 * Device identification and the per-device button layout. The daemon reads
 * a device name once at start-up and derives from it whether the console is
 * an OGA 1.1 and which buttons serve as the hotkey and as the brightness,
 * volume and suspend buttons.
 */
module DeviceProfile {
  import opened Wrappers
  import opened EventCodes

  /** The device assumed when the device file is missing or empty. */
  const DEFAULT_DEVICE: string := "rgb10maxtop"

  predicate IsLineEnd(c: char) {
    c == '\r' || c == '\n'
  }

  /** Removes every trailing carriage return and line feed. */
  function TrimEndNewlines(s: string): (t: string)
    ensures t <= s
    ensures t == [] || !IsLineEnd(t[|t| - 1])
    ensures forall i :: |t| <= i < |s| ==> IsLineEnd(s[i])
  {
    if s != [] && IsLineEnd(s[|s| - 1]) then TrimEndNewlines(s[..|s| - 1]) else s
  }

  /**
   * The device name: the contents of the device file (None when the file
   * does not exist) without trailing line ends, unless that leaves nothing,
   * in which case the default device.
   */
  function ResolveDevice(contents: Option<string>): (d: string)
    ensures d != []
    ensures d == DEFAULT_DEVICE || (contents.Some? && d == TrimEndNewlines(contents.value))
    ensures contents.Some? && TrimEndNewlines(contents.value) != [] ==> d == TrimEndNewlines(contents.value)
  {
    if contents.Some? && TrimEndNewlines(contents.value) != [] then
      TrimEndNewlines(contents.value)
    else
      DEFAULT_DEVICE
  }

  function IsOga1(device: string): bool {
    device == "oga1"
  }

  function HotkeyCode(device: string): EventCode {
    if device == "rgb10maxtop" then BTN_TRIGGER_HAPPY4
    else if device == "rgb10maxnative" then BTN_TRIGGER_HAPPY2
    else BTN_TRIGGER_HAPPY6
  }

  function BrightUpCode(device: string): EventCode {
    if IsOga1(device) then BTN_TRIGGER_HAPPY5 else BTN_DPAD_UP
  }

  function BrightDownCode(device: string): EventCode {
    if IsOga1(device) then BTN_TRIGGER_HAPPY4 else BTN_DPAD_DOWN
  }

  function VolUpCode(device: string): EventCode {
    if IsOga1(device) then BTN_TRIGGER_HAPPY3 else BTN_NORTH
  }

  function VolDownCode(device: string): EventCode {
    if IsOga1(device) then BTN_TRIGGER_HAPPY2 else BTN_SOUTH
  }

  function MuteCode(device: string): EventCode {
    if IsOga1(device) then BTN_DPAD_DOWN else BTN_WEST
  }

  function VolNormCode(device: string): EventCode {
    if IsOga1(device) then BTN_DPAD_UP else BTN_EAST
  }

  function SuspendCode(device: string): EventCode {
    if IsOga1(device) then BTN_NORTH
    else if device == "rgb10maxnative" then BTN_TRIGGER_HAPPY4
    else BTN_TRIGGER_HAPPY2
  }

  /** Everything the dispatcher needs to know about the device. */
  datatype Profile = Profile(
    isOga1: bool,
    hotkey: EventCode,
    brightUp: EventCode,
    brightDown: EventCode,
    volUp: EventCode,
    volDown: EventCode,
    mute: EventCode,
    volNorm: EventCode,
    suspend: EventCode)

  /** The profile derived from a device name, one field per derivation. */
  function ProfileOf(device: string): (p: Profile)
    ensures p.isOga1 <==> device == "oga1"
    ensures p.hotkey in {BTN_TRIGGER_HAPPY2, BTN_TRIGGER_HAPPY4, BTN_TRIGGER_HAPPY6}
    ensures p.suspend != p.hotkey
  {
    Profile(IsOga1(device), HotkeyCode(device),
            BrightUpCode(device), BrightDownCode(device),
            VolUpCode(device), VolDownCode(device),
            MuteCode(device), VolNormCode(device),
            SuspendCode(device))
  }

  /** The device families the derivations tell apart. */
  datatype Family = Oga1 | Rgb10MaxTop | Rgb10MaxNative | OtherDevice

  function FamilyOf(device: string): Family {
    if device == "oga1" then Oga1
    else if device == "rgb10maxtop" then Rgb10MaxTop
    else if device == "rgb10maxnative" then Rgb10MaxNative
    else OtherDevice
  }

  /**
   * The button layout of each family written out as one complete entry
   * (OtherDevice covers "ogs" and "oga").
   */
  function ProfileTable(f: Family): Profile {
    match f
    case Oga1 =>
      Profile(true, BTN_TRIGGER_HAPPY6,
              BTN_TRIGGER_HAPPY5, BTN_TRIGGER_HAPPY4,
              BTN_TRIGGER_HAPPY3, BTN_TRIGGER_HAPPY2,
              BTN_DPAD_DOWN, BTN_DPAD_UP, BTN_NORTH)
    case Rgb10MaxTop =>
      Profile(false, BTN_TRIGGER_HAPPY4,
              BTN_DPAD_UP, BTN_DPAD_DOWN, BTN_NORTH, BTN_SOUTH,
              BTN_WEST, BTN_EAST, BTN_TRIGGER_HAPPY2)
    case Rgb10MaxNative =>
      Profile(false, BTN_TRIGGER_HAPPY2,
              BTN_DPAD_UP, BTN_DPAD_DOWN, BTN_NORTH, BTN_SOUTH,
              BTN_WEST, BTN_EAST, BTN_TRIGGER_HAPPY4)
    case OtherDevice =>
      Profile(false, BTN_TRIGGER_HAPPY6,
              BTN_DPAD_UP, BTN_DPAD_DOWN, BTN_NORTH, BTN_SOUTH,
              BTN_WEST, BTN_EAST, BTN_TRIGGER_HAPPY2)
  }

  /** The derivations agree with the per-family table for every device name. */
  lemma ProfileOfMatchesTable(device: string)
    ensures ProfileOf(device) == ProfileTable(FamilyOf(device))
  {
  }
}
