/**
 * The body of the daemon's event loop: for each input event it updates the
 * hotkey flag, dispatches the event, and runs the double-push detector of the
 * power key, which compares the press with the previous qualifying press.
 */
module Daemon {
  import opened EventCodes
  import opened DeviceProfile
  import opened PowerkeyConfig
  import opened Dispatch

  /**
   * The loop's state: whether the hotkey is held, and the timestamp of the
   * previous qualifying power-key press (seconds, microseconds).
   */
  datatype LoopState = LoopState(hotkey: bool, secFirstPush: int, usecFirstPush: int)

  /** The state before the first event: no hotkey, reference time (0, 0). */
  const INITIAL: LoopState := LoopState(false, 0, 0)

  // ---------------------------------------------------------------------
  // The double-push arithmetic
  // ---------------------------------------------------------------------

  /** The microsecond difference; a negative one is wrapped by adding 999999. */
  function WrappedUsecDiff(usec: int, refUsec: int): (w: int)
    ensures 0 <= usec < 1000000 && 0 <= refUsec < 1000000 ==> 0 <= w <= 999999
    ensures usec >= refUsec ==> w == usec - refUsec
    ensures usec < refUsec ==> w == 999999 + (usec - refUsec)
  {
    var d := usec - refUsec;
    if d < 0 then 999999 + d else d
  }

  /**
   * The whole seconds the detector counts between the reference time and a
   * press: the raw second difference, less one unless the wrapped microsecond
   * difference reaches 990000.
   */
  function SecDiff(sec: int, usec: int, refSec: int, refUsec: int): (d: int)
    ensures d == sec - refSec || d == sec - refSec - 1
    ensures d == sec - refSec - 1 <==> WrappedUsecDiff(usec, refUsec) < 990000
  {
    var raw := sec - refSec;
    if WrappedUsecDiff(usec, refUsec) < 990000 then raw - 1 else raw
  }

  /** The detector fires when the counted seconds lie in [1, maxInterval]. */
  predicate PowerFires(cfg: Config, secDiff: int) {
    MIN_POWERKEY_ELAPSED <= secDiff <= cfg.maxInterval
  }

  /** The action a double push runs. */
  function PowerAction(cfg: Config): (a: Action)
    ensures a == Suspend <==> cfg.action == PowerkeySuspend
    ensures a == PowerOff <==> cfg.action == PowerkeyShutdown
  {
    match cfg.action
    case PowerkeySuspend => Suspend
    case PowerkeyShutdown => PowerOff
  }

  /** A press of the power key while double push is enabled. */
  predicate QualifyingPress(cfg: Config, ev: InputEvent) {
    ev.code == POWER_OFF && cfg.doublePush && ev.value == PRESS
  }

  /**
   * Against the elapsed time in microseconds, for microsecond fields in
   * [0, 1000000), the counted seconds are the whole elapsed seconds less one,
   * the whole elapsed seconds, or one more, depending on the sub-second parts.
   */
  lemma SecDiffAgainstElapsed(sec: int, usec: int, refSec: int, refUsec: int)
    requires 0 <= usec < 1000000 && 0 <= refUsec < 1000000
    ensures var whole := ((sec - refSec) * 1000000 + (usec - refUsec)) / 1000000;
            SecDiff(sec, usec, refSec, refUsec)
            == if usec >= refUsec then
                 (if usec - refUsec < 990000 then whole - 1 else whole)
               else
                 (if usec - refUsec < -9999 then whole else whole + 1)
  {
    var e := (sec - refSec) * 1000000 + (usec - refUsec);
    var raw := sec - refSec;
    if usec >= refUsec {
      assert raw * 1000000 <= e < (raw + 1) * 1000000;
      assert e / 1000000 == raw;
    } else {
      assert (raw - 1) * 1000000 <= e < raw * 1000000;
      assert e / 1000000 == raw - 1;
    }
  }

  /**
   * The verdict is not a function of the elapsed time: two pairs of presses
   * 1.5 s apart, one of which fires and one of which does not.
   */
  lemma VerdictDependsOnPhase(cfg: Config)
    requires cfg.maxInterval >= 1
    ensures !PowerFires(cfg, SecDiff(1, 500000, 0, 0))
    ensures PowerFires(cfg, SecDiff(2, 100000, 0, 600000))
  {
  }

  /**
   * For kernel timestamps (seconds in [0, i64 max], microseconds in
   * [0, 1000000)) no intermediate value of the arithmetic leaves the i64
   * range, so unbounded integers compute what the i64 code computes.
   */
  lemma PowerArithmeticFitsI64(sec: int, usec: int, refSec: int, refUsec: int)
    requires 0 <= sec <= I64_MAX && 0 <= refSec <= I64_MAX
    requires 0 <= usec < 1000000 && 0 <= refUsec < 1000000
    ensures InI64(sec - refSec) && InI64(sec - refSec - 1)
    ensures InI64(usec - refUsec) && InI64(WrappedUsecDiff(usec, refUsec))
    ensures InI64(SecDiff(sec, usec, refSec, refUsec))
  {
  }

  // ---------------------------------------------------------------------
  // One event, and a sequence of events
  // ---------------------------------------------------------------------

  /** The new state and the actions, in order, of one event. */
  function Step(p: Profile, cfg: Config, s: LoopState, ev: InputEvent): (r: (LoopState, seq<Action>))
    ensures r.0.hotkey == if ev.code == p.hotkey then ev.value == PRESS else s.hotkey
    ensures (r.0.secFirstPush, r.0.usecFirstPush)
            == if QualifyingPress(cfg, ev) then (ev.sec, ev.usec) else (s.secFirstPush, s.usecFirstPush)
    ensures r.1 == ProcessEvent(p, ev, r.0.hotkey)
                   + if QualifyingPress(cfg, ev)
                        && PowerFires(cfg, SecDiff(ev.sec, ev.usec, s.secFirstPush, s.usecFirstPush))
                     then [PowerAction(cfg)] else []
  {
    var hotkey := if ev.code == p.hotkey then ev.value == PRESS else s.hotkey;
    var dispatched := ProcessEvent(p, ev, hotkey);
    if QualifyingPress(cfg, ev) then
      var d := SecDiff(ev.sec, ev.usec, s.secFirstPush, s.usecFirstPush);
      (LoopState(hotkey, ev.sec, ev.usec),
       dispatched + if PowerFires(cfg, d) then [PowerAction(cfg)] else [])
    else
      (LoopState(hotkey, s.secFirstPush, s.usecFirstPush), dispatched)
  }

  /** The state after a sequence of events, and all the actions they trigger. */
  function Run(p: Profile, cfg: Config, s: LoopState, evs: seq<InputEvent>): (r: (LoopState, seq<Action>))
    ensures |r.1| <= 3 * |evs|
    decreases |evs|
  {
    if evs == [] then (s, [])
    else
      var before := Run(p, cfg, s, evs[..|evs| - 1]);
      var last := Step(p, cfg, before.0, evs[|evs| - 1]);
      (last.0, before.1 + last.1)
  }

  /**
   * A power-key event triggers nothing but the double-push action, and that
   * exactly when it is a qualifying press whose counted seconds lie in
   * [1, maxInterval].
   */
  lemma PowerKeyStep(device: string, cfg: Config, s: LoopState, ev: InputEvent)
    requires ev.code == POWER_OFF
    ensures var r := Step(ProfileOf(device), cfg, s, ev);
            r.1 == if QualifyingPress(cfg, ev)
                      && PowerFires(cfg, SecDiff(ev.sec, ev.usec, s.secFirstPush, s.usecFirstPush))
                   then [PowerAction(cfg)] else []
  {
    HotkeyAndPowerUnbound(device);
    UnboundDispatchesNothing(ProfileOf(device), ev, s.hotkey);
  }

  /** Under every device profile one event triggers at most one action. */
  lemma AtMostOneActionPerEvent(device: string, cfg: Config, s: LoopState, ev: InputEvent)
    ensures |Step(ProfileOf(device), cfg, s, ev).1| <= 1
  {
    var p := ProfileOf(device);
    var hotkey := if ev.code == p.hotkey then ev.value == PRESS else s.hotkey;
    if ev.code == POWER_OFF {
      PowerKeyStep(device, cfg, s, ev);
    } else {
      AtMostOneAction(device, ev, hotkey);
    }
  }

  /**
   * A hotkey event sets the flag to whether it is a press (so a release and
   * an autorepeat both clear it), and it triggers no action.
   */
  lemma HotkeyEventStep(device: string, cfg: Config, s: LoopState, ev: InputEvent)
    requires ev.code == ProfileOf(device).hotkey
    ensures var r := Step(ProfileOf(device), cfg, s, ev);
            r.0 == LoopState(ev.value == PRESS, s.secFirstPush, s.usecFirstPush) && r.1 == []
  {
    HotkeyAndPowerUnbound(device);
    UnboundDispatchesNothing(ProfileOf(device), ev, ev.value == PRESS);
  }

  /** An event that is neither a press nor a hotkey event changes nothing. */
  lemma NonPressIsNoOp(p: Profile, cfg: Config, s: LoopState, ev: InputEvent)
    requires ev.value != PRESS && ev.code != p.hotkey
    ensures Step(p, cfg, s, ev) == (s, [])
  {
  }

  /**
   * After a sequence of events the hotkey flag is whether the last hotkey
   * event was a press.
   */
  lemma {:induction false} HotkeyFollowsLastHotkeyEvent(p: Profile, cfg: Config, s: LoopState,
                                                         evs: seq<InputEvent>, k: nat)
    requires k < |evs| && evs[k].code == p.hotkey
    requires forall j :: k < j < |evs| ==> evs[j].code != p.hotkey
    ensures Run(p, cfg, s, evs).0.hotkey == (evs[k].value == PRESS)
    decreases |evs|
  {
    if k < |evs| - 1 {
      HotkeyFollowsLastHotkeyEvent(p, cfg, s, evs[..|evs| - 1], k);
    }
  }

  /** Without any hotkey event the flag keeps its value. */
  lemma {:induction false} HotkeyKeptWithoutHotkeyEvents(p: Profile, cfg: Config, s: LoopState,
                                                         evs: seq<InputEvent>)
    requires forall j :: 0 <= j < |evs| ==> evs[j].code != p.hotkey
    ensures Run(p, cfg, s, evs).0.hotkey == s.hotkey
    decreases |evs|
  {
    if evs != [] {
      HotkeyKeptWithoutHotkeyEvents(p, cfg, s, evs[..|evs| - 1]);
    }
  }

  /**
   * The reference time is that of the last qualifying press, whether or not
   * that press fired.
   */
  lemma {:induction false} ReferenceIsLastQualifyingPress(p: Profile, cfg: Config, s: LoopState,
                                                          evs: seq<InputEvent>, k: nat)
    requires k < |evs| && QualifyingPress(cfg, evs[k])
    requires forall j :: k < j < |evs| ==> !QualifyingPress(cfg, evs[j])
    ensures Run(p, cfg, s, evs).0.secFirstPush == evs[k].sec
    ensures Run(p, cfg, s, evs).0.usecFirstPush == evs[k].usec
    decreases |evs|
  {
    if k < |evs| - 1 {
      ReferenceIsLastQualifyingPress(p, cfg, s, evs[..|evs| - 1], k);
    }
  }

  /**
   * Without any qualifying press the reference time is never reset, so from
   * the initial state it stays (0, 0).
   */
  lemma {:induction false} ReferenceKeptWithoutPresses(p: Profile, cfg: Config, s: LoopState,
                                                       evs: seq<InputEvent>)
    requires forall j :: 0 <= j < |evs| ==> !QualifyingPress(cfg, evs[j])
    ensures Run(p, cfg, s, evs).0.secFirstPush == s.secFirstPush
    ensures Run(p, cfg, s, evs).0.usecFirstPush == s.usecFirstPush
    decreases |evs|
  {
    if evs != [] {
      ReferenceKeptWithoutPresses(p, cfg, s, evs[..|evs| - 1]);
    }
  }

  /** Associativity of sequence concatenation, a helper for RunSplits. */
  lemma ConcatAssociates(a: seq<Action>, b: seq<Action>, c: seq<Action>)
    ensures (a + b) + c == a + (b + c)
  {
  }

  /** Handling one more event after a sequence is one more step. */
  lemma RunSnoc(p: Profile, cfg: Config, s: LoopState, init: seq<InputEvent>, ev: InputEvent)
    ensures var before := Run(p, cfg, s, init);
            var last := Step(p, cfg, before.0, ev);
            Run(p, cfg, s, init + [ev]) == (last.0, before.1 + last.1)
  {
    assert (init + [ev])[..|init|] == init;
  }

  /**
   * Handling a sequence in two parts, the second starting from the state the
   * first left, gives the same state and the same actions in the same order.
   */
  lemma {:induction false} RunSplits(p: Profile, cfg: Config, s: LoopState,
                                     xs: seq<InputEvent>, ys: seq<InputEvent>)
    ensures var first := Run(p, cfg, s, xs);
            var second := Run(p, cfg, first.0, ys);
            Run(p, cfg, s, xs + ys) == (second.0, first.1 + second.1)
    decreases |ys|
  {
    var first := Run(p, cfg, s, xs);
    if ys == [] {
      assert xs + ys == xs;
      assert first.1 + [] == first.1;
    } else {
      var init, ev := ys[..|ys| - 1], ys[|ys| - 1];
      assert ys == init + [ev];
      assert xs + ys == (xs + init) + [ev];
      RunSplits(p, cfg, s, xs, init);
      RunSnoc(p, cfg, first.0, init, ev);
      RunSnoc(p, cfg, s, xs + init, ev);
      var mid := Run(p, cfg, first.0, init);
      var last := Step(p, cfg, mid.0, ev);
      ConcatAssociates(first.1, mid.1, last.1);
    }
  }

  /** Under every device profile a sequence of events triggers at most one action per event. */
  lemma {:induction false} AtMostOneActionPerEventRun(device: string, cfg: Config, s: LoopState,
                                                      evs: seq<InputEvent>)
    ensures |Run(ProfileOf(device), cfg, s, evs).1| <= |evs|
    decreases |evs|
  {
    if evs != [] {
      AtMostOneActionPerEventRun(device, cfg, s, evs[..|evs| - 1]);
      var before := Run(ProfileOf(device), cfg, s, evs[..|evs| - 1]);
      AtMostOneActionPerEvent(device, cfg, before.0, evs[|evs| - 1]);
    }
  }

  /**
   * With double push disabled the power key never shuts the console down
   * and the reference time never moves.
   */
  lemma {:induction false} DisabledDoublePushNeverPowersOff(device: string, cfg: Config, s: LoopState,
                                                            evs: seq<InputEvent>)
    requires !cfg.doublePush
    ensures PowerOff !in Run(ProfileOf(device), cfg, s, evs).1
    ensures Run(ProfileOf(device), cfg, s, evs).0.secFirstPush == s.secFirstPush
    ensures Run(ProfileOf(device), cfg, s, evs).0.usecFirstPush == s.usecFirstPush
    decreases |evs|
  {
    if evs != [] {
      var p := ProfileOf(device);
      DisabledDoublePushNeverPowersOff(device, cfg, s, evs[..|evs| - 1]);
      var before := Run(p, cfg, s, evs[..|evs| - 1]);
      var last := Step(p, cfg, before.0, evs[|evs| - 1]);
      assert PowerOff !in last.1;
      assert Run(p, cfg, s, evs).1 == before.1 + last.1;
    }
  }

  /**
   * With double push disabled a power-key event changes nothing and runs
   * nothing.
   */
  lemma DisabledPowerKeyIsNoOp(device: string, cfg: Config, s: LoopState, ev: InputEvent)
    requires !cfg.doublePush && ev.code == POWER_OFF
    ensures Step(ProfileOf(device), cfg, s, ev) == (s, [])
  {
    PowerKeyStep(device, cfg, s, ev);
  }

  /**
   * The first qualifying press compares with the initial reference (0, 0):
   * it fires exactly when its own timestamp, counted as a difference from
   * (0, 0), falls in the window.
   */
  lemma FirstPressAgainstZero(device: string, cfg: Config, ev: InputEvent)
    requires QualifyingPress(cfg, ev) && 0 <= ev.usec < 1000000
    ensures Step(ProfileOf(device), cfg, INITIAL, ev).1 != []
            <==> PowerFires(cfg, if ev.usec < 990000 then ev.sec - 1 else ev.sec)
  {
    PowerKeyStep(device, cfg, INITIAL, ev);
  }

  /**
   * Presses 0.5 s and then 1.1 s apart with the default window: none of the
   * three fires, and the reference ends at the last press.
   */
  lemma SlidingReferenceExample(device: string)
    ensures var cfg := Config(true, DEFAULT_MAX_INTERVAL, PowerkeyShutdown);
            var evs := [InputEvent(POWER_OFF, PRESS, 100, 0),
                        InputEvent(POWER_OFF, PRESS, 100, 500000),
                        InputEvent(POWER_OFF, PRESS, 101, 600000)];
            Run(ProfileOf(device), cfg, INITIAL, evs) == (LoopState(false, 101, 600000), [])
  {
    var p := ProfileOf(device);
    var cfg := Config(true, DEFAULT_MAX_INTERVAL, PowerkeyShutdown);
    var e0 := InputEvent(POWER_OFF, PRESS, 100, 0);
    var e1 := InputEvent(POWER_OFF, PRESS, 100, 500000);
    var e2 := InputEvent(POWER_OFF, PRESS, 101, 600000);
    HotkeyAndPowerUnbound(device);
    PowerKeyStep(device, cfg, INITIAL, e0);
    PowerKeyStep(device, cfg, LoopState(false, 100, 0), e1);
    PowerKeyStep(device, cfg, LoopState(false, 100, 500000), e2);
    assert [e0][..0] == [];
    assert Run(p, cfg, INITIAL, [e0]) == (LoopState(false, 100, 0), []);
    assert [e0, e1][..1] == [e0];
    assert Run(p, cfg, INITIAL, [e0, e1]) == (LoopState(false, 100, 500000), []);
    assert [e0, e1, e2][..2] == [e0, e1];
  }

  // ---------------------------------------------------------------------
  // The event loop itself
  // ---------------------------------------------------------------------

  /** The daemon: its resolved settings and the state its loop keeps. */
  class HotkeyDaemon {
    const profile: Profile
    const config: Config
    var hotkey: bool
    var secFirstPush: int
    var usecFirstPush: int

    function Snapshot(): LoopState
      reads this
    {
      LoopState(hotkey, secFirstPush, usecFirstPush)
    }

    /** Start-up: resolve the device profile and the power-key settings. */
    constructor (device: string, props: Properties)
      requires ValidProperties(props)
      ensures profile == ProfileOf(device) && config == ConfigOf(props)
      ensures Snapshot() == INITIAL
    {
      profile := ProfileOf(device);
      config := ConfigOf(props);
      hotkey := false;
      secFirstPush := 0;
      usecFirstPush := 0;
    }

    /** Handles one event read from a device. */
    method HandleEvent(ev: InputEvent) returns (actions: seq<Action>)
      modifies this
      ensures hotkey == if ev.code == profile.hotkey then ev.value == PRESS else old(hotkey)
      ensures secFirstPush == if QualifyingPress(config, ev) then ev.sec else old(secFirstPush)
      ensures usecFirstPush == if QualifyingPress(config, ev) then ev.usec else old(usecFirstPush)
      ensures (Snapshot(), actions) == Step(profile, config, old(Snapshot()), ev)
    {
      ghost var s0 := Snapshot();
      if ev.code == profile.hotkey {
        hotkey := ev.value == PRESS;
      }
      actions := ProcessEvent(profile, ev, hotkey);
      if ev.code == POWER_OFF && config.doublePush && ev.value == PRESS {
        var secDiff := ev.sec - secFirstPush;
        var usecDiff := ev.usec - usecFirstPush;
        if usecDiff < 0 {
          usecDiff := 999999 + usecDiff;
        }
        if usecDiff < 990000 {
          secDiff := secDiff - 1;
        }
        assert secDiff == SecDiff(ev.sec, ev.usec, s0.secFirstPush, s0.usecFirstPush);
        secFirstPush := ev.sec;
        usecFirstPush := ev.usec;
        if secDiff >= MIN_POWERKEY_ELAPSED && secDiff <= config.maxInterval {
          actions := actions + [PowerAction(config)];
        } else {
          assert actions + [] == actions;
        }
      }
    }

    /** Handles, in order, the events pending on a device. */
    method HandleEvents(events: seq<InputEvent>) returns (actions: seq<Action>)
      modifies this
      ensures (Snapshot(), actions) == Run(profile, config, old(Snapshot()), events)
    {
      actions := [];
      var i := 0;
      while i < |events|
        invariant 0 <= i <= |events|
        invariant (Snapshot(), actions) == Run(profile, config, old(Snapshot()), events[..i])
      {
        var more := HandleEvent(events[i]);
        actions := actions + more;
        assert events[..i + 1][..i] == events[..i];
        i := i + 1;
      }
      assert events[..i] == events;
    }
  }
}
