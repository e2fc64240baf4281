/**
 * The dispatch table: which action a key press triggers, given whether the
 * hotkey is held and the device profile. The actions themselves run external
 * programs; here they are the values the dispatcher emits, in the order in
 * which it would run them.
 */
module Dispatch {
  import opened Wrappers
  import opened EventCodes
  import opened DeviceProfile

  /** The external actions the daemon can run. */
  datatype Action =
    | IncBrightness | DecBrightness
    | IncVolume | DecVolume | MuteVolume | NormVolume
    | PerfMax | PerfNorm
    | DarkOn | DarkOff
    | WifiOn | WifiOff
    | Suspend | PowerOff

  /** The buttons that are the same on every device. */
  const PERF_MAX: EventCode := BTN_TL2
  const PERF_NORM: EventCode := BTN_TL
  const DARK_ON: EventCode := BTN_DPAD_LEFT
  const DARK_OFF: EventCode := BTN_DPAD_RIGHT
  const WIFI_ON: EventCode := BTN_TR
  const WIFI_OFF: EventCode := BTN_TR2
  const POWER_OFF: EventCode := KEY_POWER

  /** Hotkey held, not an OGA 1.1: brightness and volume, first match wins. */
  function ChordedLevels(p: Profile, code: EventCode): (r: seq<Action>)
    ensures |r| <= 1
  {
    if code == p.brightUp then [IncBrightness]
    else if code == p.brightDown then [DecBrightness]
    else if code == p.volUp then [IncVolume]
    else if code == p.volDown then [DecVolume]
    else []
  }

  /** Hotkey held, any device: the system actions, first match wins. */
  function ChordedSystem(p: Profile, code: EventCode): (r: seq<Action>)
    ensures |r| <= 1
  {
    if code == p.mute then [MuteVolume]
    else if code == p.volNorm then [NormVolume]
    else if code == PERF_MAX then [PerfMax]
    else if code == PERF_NORM then [PerfNorm]
    else if code == DARK_ON then [DarkOn]
    else if code == DARK_OFF then [DarkOff]
    else if code == WIFI_ON then [WifiOn]
    else if code == WIFI_OFF then [WifiOff]
    else if code == p.suspend then [Suspend]
    else []
  }

  /** Hotkey not held, OGA 1.1 only: its dedicated brightness and volume keys. */
  function UnchordedLevels(p: Profile, code: EventCode): (r: seq<Action>)
    ensures |r| <= 1
  {
    if code == p.brightDown then [DecBrightness]
    else if code == p.brightUp then [IncBrightness]
    else if code == p.volUp then [IncVolume]
    else if code == p.volDown then [DecVolume]
    else []
  }

  /** The brightness and volume actions. */
  predicate IsLevelAction(a: Action) {
    a in {IncBrightness, DecBrightness, IncVolume, DecVolume}
  }

  /**
   * The actions one event triggers. Only presses dispatch; the levels chain
   * and the system chain with the hotkey held are two separate decisions, so
   * a profile in which they share a code would trigger both.
   */
  function ProcessEvent(p: Profile, ev: InputEvent, hotkey: bool): (r: seq<Action>)
    ensures ev.value != PRESS ==> r == []
    ensures !hotkey && !p.isOga1 ==> r == []
    ensures !hotkey ==> forall a :: a in r ==> IsLevelAction(a)
    ensures hotkey && p.isOga1 ==> forall a :: a in r ==> !IsLevelAction(a)
    ensures PowerOff !in r
    ensures |r| <= 2
  {
    if ev.value == PRESS then
      if hotkey then
        (if !p.isOga1 then ChordedLevels(p, ev.code) else []) + ChordedSystem(p, ev.code)
      else if p.isOga1 then
        UnchordedLevels(p, ev.code)
      else
        []
    else
      []
  }

  // ---------------------------------------------------------------------
  // The same decisions as one priority list of bindings
  // ---------------------------------------------------------------------

  /** A binding of a code, with or without the hotkey, to an action. */
  datatype Binding = Binding(chorded: bool, code: EventCode, action: Action)

  /** With the hotkey held, not an OGA 1.1: brightness and volume. */
  function LevelBindings(p: Profile): seq<Binding> {
    if p.isOga1 then []
    else [Binding(true, p.brightUp, IncBrightness), Binding(true, p.brightDown, DecBrightness),
          Binding(true, p.volUp, IncVolume), Binding(true, p.volDown, DecVolume)]
  }

  /** With the hotkey held: the system actions. */
  function SystemBindings(p: Profile): seq<Binding> {
    [Binding(true, p.mute, MuteVolume), Binding(true, p.volNorm, NormVolume),
     Binding(true, PERF_MAX, PerfMax), Binding(true, PERF_NORM, PerfNorm),
     Binding(true, DARK_ON, DarkOn), Binding(true, DARK_OFF, DarkOff),
     Binding(true, WIFI_ON, WifiOn), Binding(true, WIFI_OFF, WifiOff),
     Binding(true, p.suspend, Suspend)]
  }

  /** Without the hotkey, OGA 1.1 only: brightness and volume. */
  function UnchordedBindings(p: Profile): seq<Binding> {
    if p.isOga1
    then [Binding(false, p.brightDown, DecBrightness), Binding(false, p.brightUp, IncBrightness),
          Binding(false, p.volUp, IncVolume), Binding(false, p.volDown, DecVolume)]
    else []
  }

  /** All bindings of a profile, in priority order. */
  function Bindings(p: Profile): seq<Binding> {
    LevelBindings(p) + SystemBindings(p) + UnchordedBindings(p)
  }

  predicate Matches(b: Binding, chorded: bool, code: EventCode) {
    b.chorded == chorded && b.code == code
  }

  /** The action of the first binding that matches, if any. */
  function FirstMatch(t: seq<Binding>, chorded: bool, code: EventCode): (r: Option<Action>)
    ensures r.None? <==> forall i :: 0 <= i < |t| ==> !Matches(t[i], chorded, code)
    ensures r.Some? ==>
              exists i :: 0 <= i < |t| && t[i] == Binding(chorded, code, r.value)
                && forall j :: 0 <= j < i ==> !Matches(t[j], chorded, code)
  {
    if t == [] then None
    else if Matches(t[0], chorded, code) then Some(t[0].action)
    else
      var r := FirstMatch(t[1..], chorded, code);
      if r.Some? then
        ghost var i :| 0 <= i < |t[1..]| && t[1..][i] == Binding(chorded, code, r.value)
                       && forall j :: 0 <= j < i ==> !Matches(t[1..][j], chorded, code);
        assert t[i + 1] == Binding(chorded, code, r.value);
        r
      else
        r
  }

  function AsSeq(o: Option<Action>): seq<Action> {
    if o.Some? then [o.value] else []
  }

  /** The codes the levels chains look at. */
  function LevelCodes(p: Profile): set<EventCode> {
    {p.brightUp, p.brightDown, p.volUp, p.volDown}
  }

  /** The codes the system chain looks at. */
  function SystemCodes(p: Profile): set<EventCode> {
    {p.mute, p.volNorm, PERF_MAX, PERF_NORM, DARK_ON, DARK_OFF, WIFI_ON, WIFI_OFF, p.suspend}
  }

  /**
   * The brightness and volume codes a non-OGA 1.1 profile binds under the
   * hotkey are not also bound to a system action.
   */
  predicate ChainsDisjoint(p: Profile) {
    !p.isOga1 ==> LevelCodes(p) !! SystemCodes(p)
  }

  /** One step of the search for the first match. */
  lemma FirstMatchAt(t: seq<Binding>, k: nat, chorded: bool, code: EventCode)
    requires k < |t|
    ensures FirstMatch(t[k..], chorded, code)
            == if Matches(t[k], chorded, code) then Some(t[k].action) else FirstMatch(t[k + 1..], chorded, code)
  {
    assert t[k..][0] == t[k];
    assert t[k..][1..] == t[k + 1..];
  }

  lemma ChordedLevelsFirstMatch(p: Profile, code: EventCode)
    requires !p.isOga1
    ensures ChordedLevels(p, code) == AsSeq(FirstMatch(LevelBindings(p), true, code))
  {
    var t := LevelBindings(p);
    assert t[0..] == t;
    FirstMatchAt(t, 0, true, code);
    FirstMatchAt(t, 1, true, code);
    FirstMatchAt(t, 2, true, code);
    FirstMatchAt(t, 3, true, code);
  }

  lemma UnchordedLevelsFirstMatch(p: Profile, code: EventCode)
    requires p.isOga1
    ensures UnchordedLevels(p, code) == AsSeq(FirstMatch(UnchordedBindings(p), false, code))
  {
    var t := UnchordedBindings(p);
    assert t[0..] == t;
    FirstMatchAt(t, 0, false, code);
    FirstMatchAt(t, 1, false, code);
    FirstMatchAt(t, 2, false, code);
    FirstMatchAt(t, 3, false, code);
  }

  lemma ChordedSystemFirstMatch(p: Profile, code: EventCode)
    ensures ChordedSystem(p, code) == AsSeq(FirstMatch(SystemBindings(p), true, code))
  {
    var t := SystemBindings(p);
    assert t[0..] == t;
    FirstMatchAt(t, 0, true, code);
    FirstMatchAt(t, 1, true, code);
    FirstMatchAt(t, 2, true, code);
    FirstMatchAt(t, 3, true, code);
    FirstMatchAt(t, 4, true, code);
    FirstMatchAt(t, 5, true, code);
    FirstMatchAt(t, 6, true, code);
    FirstMatchAt(t, 7, true, code);
    FirstMatchAt(t, 8, true, code);
  }

  /** No binding whose hotkey state differs from the one looked up matches. */
  lemma {:induction false} FirstMatchOtherState(t: seq<Binding>, chorded: bool, code: EventCode)
    requires forall i :: 0 <= i < |t| ==> t[i].chorded != chorded
    ensures FirstMatch(t, chorded, code) == None
  {
  }

  /** A match in the front part of a list is the first match of the whole. */
  lemma {:induction false} FirstMatchAppend(s: seq<Binding>, t: seq<Binding>, chorded: bool, code: EventCode)
    ensures FirstMatch(s + t, chorded, code)
            == if FirstMatch(s, chorded, code).Some? then FirstMatch(s, chorded, code)
               else FirstMatch(t, chorded, code)
  {
    if s != [] {
      assert (s + t)[0] == s[0];
      assert (s + t)[1..] == s[1..] + t;
      FirstMatchAppend(s[1..], t, chorded, code);
    } else {
      assert s + t == t;
    }
  }

  /**
   * When the chains are disjoint, dispatch is a lookup in the priority list:
   * a press triggers the action of the first binding for the hotkey state and
   * code, and nothing else.
   */
  lemma DispatchIsFirstMatch(p: Profile, ev: InputEvent, hotkey: bool)
    requires ChainsDisjoint(p)
    ensures ProcessEvent(p, ev, hotkey)
            == if ev.value == PRESS then AsSeq(FirstMatch(Bindings(p), hotkey, ev.code)) else []
  {
    var code := ev.code;
    FirstMatchAppend(LevelBindings(p) + SystemBindings(p), UnchordedBindings(p), hotkey, code);
    FirstMatchAppend(LevelBindings(p), SystemBindings(p), hotkey, code);
    if hotkey {
      FirstMatchOtherState(UnchordedBindings(p), true, code);
      ChordedDispatch(p, code);
    } else {
      FirstMatchOtherState(LevelBindings(p) + SystemBindings(p), false, code);
      if p.isOga1 {
        UnchordedLevelsFirstMatch(p, code);
      }
    }
  }

  /** With the hotkey held, the two chains together give the first chorded match. */
  lemma ChordedDispatch(p: Profile, code: EventCode)
    requires ChainsDisjoint(p)
    ensures (if !p.isOga1 then ChordedLevels(p, code) else []) + ChordedSystem(p, code)
            == AsSeq(if FirstMatch(LevelBindings(p), true, code).Some?
                     then FirstMatch(LevelBindings(p), true, code)
                     else FirstMatch(SystemBindings(p), true, code))
  {
    ChordedSystemFirstMatch(p, code);
    if !p.isOga1 {
      ChordedLevelsFirstMatch(p, code);
      if ChordedLevels(p, code) != [] {
        assert code in LevelCodes(p);
        assert code !in SystemCodes(p);
      }
    }
  }

  // ---------------------------------------------------------------------
  // Facts about the device profiles
  // ---------------------------------------------------------------------

  /** A code that no chain of the profile looks at. */
  predicate Unbound(p: Profile, c: EventCode) {
    c !in LevelCodes(p) && c !in SystemCodes(p)
  }

  /** An event with an unbound code triggers nothing, held hotkey or not. */
  lemma UnboundDispatchesNothing(p: Profile, ev: InputEvent, hotkey: bool)
    requires Unbound(p, ev.code)
    ensures ProcessEvent(p, ev, hotkey) == []
  {
  }

  /** Every device profile keeps the two chains apart. */
  lemma ProfileChainsDisjoint(device: string)
    ensures ChainsDisjoint(ProfileOf(device))
  {
    ProfileOfMatchesTable(device);
  }

  /** Under every device profile one event triggers at most one action. */
  lemma AtMostOneAction(device: string, ev: InputEvent, hotkey: bool)
    ensures |ProcessEvent(ProfileOf(device), ev, hotkey)| <= 1
  {
    ProfileChainsDisjoint(device);
    DispatchIsFirstMatch(ProfileOf(device), ev, hotkey);
  }

  /** Under every device profile neither the hotkey nor the power key is bound. */
  lemma HotkeyAndPowerUnbound(device: string)
    ensures Unbound(ProfileOf(device), ProfileOf(device).hotkey)
    ensures Unbound(ProfileOf(device), POWER_OFF)
  {
    ProfileOfMatchesTable(device);
  }
}
