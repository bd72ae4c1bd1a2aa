/**
  The reconciliation state of VolumeState as a value, and its transition table as
  functions: one function per handler of the program (the twelve cases), one for
  the dispatch of handle_event, and the properties the table promises.

  The device is the Channel.Hardware register and command trace; "display" is a
  trace of the values handed to the on-screen display callback (`None` when an
  unset saved gain is shown).
*/
module Transitions {
  import opened Wrappers
  import opened Codec
  import opened Channel

  datatype Event =
    | KbVol(delta: int)   // keyboard or wheel step, in half-dB steps
    | KbMuteToggle
    | RcVol(gain: int)    // the poller saw the gain change, new gain in half-dB steps
    | RcMuteToggle        // the poller saw the digital mute bit flip

  /** Which actor the controller believes owns the attenuation. Both flags set falls in DigitalMuted. */
  datatype Regime = KeyboardMuted | Normal | DigitalMuted

  function RegimeOf(kb: bool, dig: bool): Regime
  {
    if kb && !dig then KeyboardMuted
    else if !kb && !dig then Normal
    else DigitalMuted
  }

  datatype Machine = Machine(
    keyboardMuted: bool,
    digitalMuted: bool,
    savedGain: Option<int>,
    skipNextRcVol: bool,      // one-shot: swallow the echo of the mute-floor write
    skipSaveOnly: bool,       // one-shot: keep the next remote mute from saving the gain
    ignorePollCount: int,     // suspend_polling depth
    prevKb: bool,             // the poller's snapshot of keyboardMuted before its update
    prevDig: bool,            // the poller's snapshot of digitalMuted before its update
    hw: Hardware,
    shown: seq<Option<int>>)

  /** VolumeState() on a device. */
  function Initial(hw: Hardware): Machine
  {
    Machine(false, false, None, false, false, 0, false, false, hw, [])
  }

  /** A handler's result: the state it leaves, and whether it ended by raising. */
  datatype Outcome = Outcome(m: Machine, raised: bool)

  // ---------------------------------------------------------------- shared primitives

  function Show(m: Machine, v: Option<int>): Machine
  {
    m.(shown := m.shown + [v])
  }

  /**
    apply_gain: inside a suspend scope, write the gain and display it. An unset
    gain raises in the clamp before anything is written or shown; the scope's
    finally restores the suspend depth either way.
  */
  function ApplyGain(m: Machine, g: Option<int>): Outcome
  {
    match g
    case None => Outcome(m, true)
    case Some(h) => Outcome(Show(m.(hw := HwWriteGain(m.hw, h)), g), false)
  }

  /** apply_delta: read the hardware gain, clamp gain + delta, apply it. */
  function ApplyDelta(m: Machine, delta: int): Machine
  {
    var target := Clamp(HwGain(m.hw) + delta);
    ApplyGain(m.(hw := HwRead(m.hw)), Some(target)).m
  }

  /** apply_digital_unmute: write mute off inside a suspend scope, then clear the flag. */
  function ApplyDigitalUnmute(m: Machine): Machine
  {
    m.(hw := HwWriteMute(m.hw, false), digitalMuted := false)
  }

  /** saved_gain = current_gain(): a gain read whose answer becomes the saved gain. */
  function SaveCurrentGain(m: Machine): Machine
  {
    m.(hw := HwRead(m.hw), savedGain := Some(HwGain(m.hw)))
  }

  // ---------------------------------------------------------------- the twelve cases

  /** Cases 1, 4 and 7 (keyboard-muted regime): restore the saved gain, clear keyboard mute. */
  function RestoreSavedGain(m: Machine): Outcome
  {
    var o := ApplyGain(m, m.savedGain);
    if o.raised then o else Outcome(o.m.(keyboardMuted := false), false)
  }

  /** Case 2: apply the step, then resync the saved gain from the hardware. */
  function KbVolCase2(m: Machine, delta: int): Machine
  {
    SaveCurrentGain(ApplyDelta(m, delta))
  }

  /** Case 3: clear the digital mute, restore the saved gain, block the next save-only. */
  function KbVolCase3(m: Machine): Outcome
  {
    var m1 := ApplyDigitalUnmute(m);
    var o := ApplyGain(m1, m1.savedGain);
    if o.raised then o else Outcome(o.m.(skipSaveOnly := true), false)
  }

  /** Case 5: arm the echo guard, save the current gain, write the mute floor, set keyboard mute. */
  function KbMuteCase5(m: Machine): Machine
  {
    var m1 := SaveCurrentGain(m.(skipNextRcVol := true));
    ApplyGain(m1, Some(MuteFloor)).m.(keyboardMuted := true)
  }

  /** Case 6: clear the digital mute, display the saved gain only, block the next save-only. */
  function KbMuteCase6(m: Machine): Machine
  {
    var m1 := ApplyDigitalUnmute(m);
    Show(m1, m1.savedGain).(skipSaveOnly := true)
  }

  /** Case 10: clear the digital mute, then restore the saved gain. */
  function RcMuteCase10(m: Machine): Outcome
  {
    ApplyGain(ApplyDigitalUnmute(m), m.savedGain)
  }

  /** Case 11: display the mute floor and save the current gain. */
  function RcMuteCase11(m: Machine): Machine
  {
    SaveCurrentGain(Show(m, Some(MuteFloor)))
  }

  /** Case 12: display the saved gain only, and block the next save-only. */
  function RcMuteCase12(m: Machine): Machine
  {
    Show(m, m.savedGain).(skipSaveOnly := true)
  }

  /** RC_VOL once the echo guard is past: cases 7, 8 (display only) and 9 (display the saved gain). */
  function RcVolCases(m: Machine, gain: int): Outcome
  {
    match RegimeOf(m.prevKb, m.prevDig)
    case KeyboardMuted => RestoreSavedGain(m)
    case Normal => Outcome(Show(m, Some(gain)), false)
    case DigitalMuted => Outcome(Show(m, m.savedGain), false)
  }

  /**
    handle_event. Keyboard events take their regime from the live flags, remote
    events from the poller's snapshot; RC_VOL first consumes the echo guard;
    RC_MUTE_TOGGLE clears skipSaveOnly once its case has run.
  */
  function Step(m: Machine, ev: Event): (o: Outcome)
    ensures o.m.ignorePollCount == m.ignorePollCount
    ensures o.m.prevKb == m.prevKb && o.m.prevDig == m.prevDig
    ensures |m.hw.sent| <= |o.m.hw.sent| && o.m.hw.sent[..|m.hw.sent|] == m.hw.sent
    ensures o.raised ==> m.savedGain.None?
    ensures m.savedGain.Some? ==> o.m.savedGain.Some?
    ensures ev.RcVol? ==> o.m.digitalMuted == m.digitalMuted && o.m.hw.muted == m.hw.muted
  {
    match ev
    case KbVol(delta) =>
      (match RegimeOf(m.keyboardMuted, m.digitalMuted)
       case KeyboardMuted => RestoreSavedGain(m)
       case Normal => Outcome(KbVolCase2(m, delta), false)
       case DigitalMuted => KbVolCase3(m))
    case KbMuteToggle =>
      (match RegimeOf(m.keyboardMuted, m.digitalMuted)
       case KeyboardMuted => RestoreSavedGain(m)
       case Normal => Outcome(KbMuteCase5(m), false)
       case DigitalMuted => Outcome(KbMuteCase6(m), false))
    case RcVol(gain) =>
      if m.skipNextRcVol then Outcome(m.(skipNextRcVol := false), false)
      else RcVolCases(m, gain)
    case RcMuteToggle =>
      var regime := RegimeOf(m.prevKb, m.prevDig);
      var o :=
        if regime == KeyboardMuted then RcMuteCase10(m)
        else if regime == Normal && !m.skipSaveOnly then Outcome(RcMuteCase11(m), false)
        else Outcome(RcMuteCase12(m), false);
      if o.raised then o else Outcome(o.m.(skipSaveOnly := false), false)
  }

  // ---------------------------------------------------------------- keyboard events

  /**
    KB_VOL from keyboard-muted: the saved gain goes back to the hardware and the
    display, keyboard mute is cleared, and the step itself has no effect.
  */
  lemma KbVolFromKeyboardMuted(m: Machine, delta: int, g: int)
    requires RegimeOf(m.keyboardMuted, m.digitalMuted) == KeyboardMuted && m.savedGain == Some(g)
    ensures var o := Step(m, KbVol(delta));
      && !o.raised
      && !o.m.keyboardMuted
      && HwGain(o.m.hw) == Clamp(g)
      && o.m.hw.sent == m.hw.sent + [SetGain(EncodeGain(g))]
      && o.m.shown == m.shown + [Some(g)]
      && o.m.savedGain == m.savedGain
    ensures Step(m, KbVol(delta)) == Outcome(m.(keyboardMuted := false,
                                                hw := m.hw.(raw := EncodeGain(g), sent := m.hw.sent + [SetGain(EncodeGain(g))]),
                                                shown := m.shown + [Some(g)]), false)
    ensures forall d :: Step(m, KbVol(d)) == Step(m, KbVol(delta))
  {
  }

  /** KB_MUTE_TOGGLE from keyboard-muted (case 4) does exactly what a keyboard step does there: unmute by restoring the saved gain. */
  lemma KbMuteFromKeyboardMuted(m: Machine, g: int)
    requires RegimeOf(m.keyboardMuted, m.digitalMuted) == KeyboardMuted && m.savedGain == Some(g)
    ensures var o := Step(m, KbMuteToggle);
      && !o.raised
      && !o.m.keyboardMuted && o.m.skipNextRcVol == m.skipNextRcVol
      && HwGain(o.m.hw) == Clamp(g)
      && o.m.hw.sent == m.hw.sent + [SetGain(EncodeGain(g))]
      && o.m.shown == m.shown + [Some(g)]
      && o.m.savedGain == m.savedGain
    ensures Step(m, KbMuteToggle) == Outcome(m.(keyboardMuted := false,
                                                hw := m.hw.(raw := EncodeGain(g), sent := m.hw.sent + [SetGain(EncodeGain(g))]),
                                                shown := m.shown + [Some(g)]), false)
    ensures forall d :: Step(m, KbMuteToggle) == Step(m, KbVol(d))
  {
  }

  /**
    KB_VOL in the normal regime: the hardware gets the clamped current gain plus
    the step, the display shows it, and the saved gain is resynced to it.
  */
  lemma KbVolFromNormal(m: Machine, delta: int)
    requires RegimeOf(m.keyboardMuted, m.digitalMuted) == Normal
    ensures var target := Clamp(HwGain(m.hw) + delta);
      var o := Step(m, KbVol(delta));
      && !o.raised
      && HwGain(o.m.hw) == target
      && o.m.savedGain == Some(target)
      && o.m.shown == m.shown + [Some(target)]
      && o.m.hw.sent == m.hw.sent + [GainRequest, SetGain(EncodeGain(target)), GainRequest]
      && !o.m.keyboardMuted && !o.m.digitalMuted
    ensures var target := Clamp(HwGain(m.hw) + delta);
      Step(m, KbVol(delta)) == Outcome(m.(savedGain := Some(target),
                                          hw := m.hw.(raw := EncodeGain(target),
                                                      sent := m.hw.sent + [GainRequest, SetGain(EncodeGain(target)), GainRequest]),
                                          shown := m.shown + [Some(target)]), false)
  {
  }

  /**
    KB_MUTE_TOGGLE in the normal regime: the current gain is saved, -127 dB is
    written and displayed, keyboard mute and the echo guard are set.
  */
  lemma KbMuteFromNormal(m: Machine)
    requires RegimeOf(m.keyboardMuted, m.digitalMuted) == Normal
    ensures var o := Step(m, KbMuteToggle);
      && !o.raised
      && o.m.savedGain == Some(HwGain(m.hw))
      && HwGain(o.m.hw) == MuteFloor
      && o.m.hw.sent == m.hw.sent + [GainRequest, SetGain(-MuteFloor)]
      && o.m.shown == m.shown + [Some(MuteFloor)]
      && o.m.keyboardMuted && o.m.skipNextRcVol
    ensures Step(m, KbMuteToggle) == Outcome(m.(skipNextRcVol := true, savedGain := Some(HwGain(m.hw)), keyboardMuted := true,
                                                hw := m.hw.(raw := -MuteFloor, sent := m.hw.sent + [GainRequest, SetGain(-MuteFloor)]),
                                                shown := m.shown + [Some(MuteFloor)]), false)
  {
  }

  /**
    Any keyboard event while digitally muted clears the digital mute (flag and
    hardware bit) and blocks the next save-only; only KB_VOL rewrites the gain.
  */
  lemma KeyboardEventFromDigitalMuted(m: Machine, ev: Event)
    requires ev.KbVol? || ev.KbMuteToggle?
    requires RegimeOf(m.keyboardMuted, m.digitalMuted) == DigitalMuted
    ensures var o := Step(m, ev);
      && !o.m.digitalMuted && !o.m.hw.muted
      && (o.raised <==> ev.KbVol? && m.savedGain.None?)
      && (!o.raised ==> o.m.skipSaveOnly && o.m.shown == m.shown + [m.savedGain])
      && o.m.savedGain == m.savedGain
      && (ev.KbVol? && m.savedGain.Some? ==>
            && HwGain(o.m.hw) == Clamp(m.savedGain.value)
            && o.m.hw.sent == m.hw.sent + [SetMute(false), SetGain(EncodeGain(m.savedGain.value))])
      && (ev.KbMuteToggle? ==> o.m.hw.raw == m.hw.raw && o.m.hw.sent == m.hw.sent + [SetMute(false)])
    ensures var unmuted := m.(digitalMuted := false, hw := m.hw.(muted := false, sent := m.hw.sent + [SetMute(false)]));
      Step(m, ev) ==
        if ev.KbMuteToggle? then
          Outcome(unmuted.(skipSaveOnly := true, shown := m.shown + [m.savedGain]), false)
        else if m.savedGain.None? then
          Outcome(unmuted, true)
        else
          var g := m.savedGain.value;
          Outcome(unmuted.(skipSaveOnly := true,
                           hw := unmuted.hw.(raw := EncodeGain(g), sent := unmuted.hw.sent + [SetGain(EncodeGain(g))]),
                           shown := m.shown + [Some(g)]), false)
  {
  }

  /** Keyboard events take their regime from the live flags: the poller's snapshot plays no part. */
  lemma KeyboardEventsIgnoreSnapshot(m: Machine, ev: Event, kb: bool, dig: bool)
    requires ev.KbVol? || ev.KbMuteToggle?
    ensures var o := Step(m, ev);
      Step(m.(prevKb := kb, prevDig := dig), ev) == Outcome(o.m.(prevKb := kb, prevDig := dig), o.raised)
  {
  }

  // ---------------------------------------------------------------- remote events

  /** Remote events take their regime from the snapshot: the live flags change nothing else. */
  lemma RemoteEventsIgnoreLiveFlags(m: Machine, ev: Event, kb: bool, dig: bool)
    requires ev.RcVol? || ev.RcMuteToggle?
    ensures var o := Step(m, ev);
      var o' := Step(m.(keyboardMuted := kb, digitalMuted := dig), ev);
      o'.raised == o.raised && o'.m.(keyboardMuted := o.m.keyboardMuted, digitalMuted := o.m.digitalMuted) == o.m
  {
  }

  /**
    The echo guard is consumed exactly once: the first RC_VOL is dropped with no
    write and no display, and the next one goes through the regime table.
  */
  lemma EchoGuardConsumedOnce(m: Machine, echo: int, next: int)
    requires m.skipNextRcVol
    ensures var o := Step(m, RcVol(echo));
      && o == Outcome(m.(skipNextRcVol := false), false)
      && Step(o.m, RcVol(next)) == RcVolCases(o.m, next)
  {
  }

  /**
    RC_VOL past the echo guard, by snapshot regime: from keyboard-muted (case 7) the
    saved gain is written back and keyboard mute cleared; from normal (case 8) the
    new gain is only displayed, the remote having already set it; otherwise (case 9)
    the saved gain is only displayed. Cases 8 and 9 send nothing and keep every flag.
  */
  lemma RemoteVolumeCases(m: Machine, gain: int)
    requires !m.skipNextRcVol
    ensures var o := Step(m, RcVol(gain));
      && o.m.savedGain == m.savedGain
      && match RegimeOf(m.prevKb, m.prevDig)
         case KeyboardMuted =>
           && (o.raised <==> m.savedGain.None?)
           && (m.savedGain.Some? ==>
                 && !o.m.keyboardMuted
                 && HwGain(o.m.hw) == Clamp(m.savedGain.value)
                 && o.m.hw.sent == m.hw.sent + [SetGain(EncodeGain(m.savedGain.value))]
                 && o.m.shown == m.shown + [m.savedGain]
                 && o == Outcome(m.(keyboardMuted := false,
                                    hw := m.hw.(raw := EncodeGain(m.savedGain.value),
                                                sent := m.hw.sent + [SetGain(EncodeGain(m.savedGain.value))]),
                                    shown := m.shown + [m.savedGain]), false))
           && (m.savedGain.None? ==> o == Outcome(m, true))
         case Normal =>
           && o == Outcome(m.(shown := m.shown + [Some(gain)]), false)
         case DigitalMuted =>
           && o == Outcome(m.(shown := m.shown + [m.savedGain]), false)
  {
  }

  /**
    A keyboard mute from the normal regime swallows the RC_VOL echo of its own
    mute-floor write: hardware, display and saved gain stay as the mute left them.
  */
  lemma KeyboardMuteEchoSwallowed(m: Machine, echo: int, next: int)
    requires RegimeOf(m.keyboardMuted, m.digitalMuted) == Normal
    ensures var o1 := Step(m, KbMuteToggle);
      var o2 := Step(o1.m, RcVol(echo));
      && !o2.raised && !o2.m.skipNextRcVol
      && o2.m.hw == o1.m.hw && o2.m.shown == o1.m.shown
      && o2.m.savedGain == Some(HwGain(m.hw)) && o2.m.keyboardMuted
      && Step(o2.m, RcVol(next)) == RcVolCases(o2.m, next)
  {
    KbMuteFromNormal(m);
    EchoGuardConsumedOnce(Step(m, KbMuteToggle).m, echo, next);
  }

  /**
    After RC_MUTE_TOGGLE has been handled, whichever case ran, skipSaveOnly is
    false; the handler raises only when it must restore a saved gain never set.
  */
  lemma RemoteMuteClearsSaveOnlyGuard(m: Machine)
    ensures var o := Step(m, RcMuteToggle);
      && (!o.raised ==> !o.m.skipSaveOnly)
      && (o.raised <==> RegimeOf(m.prevKb, m.prevDig) == KeyboardMuted && m.savedGain.None?)
  {
  }

  /**
    Case 11 (display the mute floor and save the hardware gain) runs exactly in the
    normal snapshot regime with skipSaveOnly clear; every other branch keeps the
    saved gain and, when it completes, displays the saved gain.
  */
  lemma RemoteMuteSavesOnlyInNormal(m: Machine)
    ensures var o := Step(m, RcMuteToggle);
      if RegimeOf(m.prevKb, m.prevDig) == Normal && !m.skipSaveOnly then
        && o.m.savedGain == Some(HwGain(m.hw))
        && o.m.shown == m.shown + [Some(MuteFloor)]
        && o.m.hw.raw == m.hw.raw && o.m.hw.muted == m.hw.muted
        && o == Outcome(m.(savedGain := Some(HwGain(m.hw)), hw := m.hw.(sent := m.hw.sent + [GainRequest]),
                           shown := m.shown + [Some(MuteFloor)]), false)
      else
        && o.m.savedGain == m.savedGain
        && (!o.raised ==> o.m.shown == m.shown + [m.savedGain])
  {
  }

  /**
    RC_MUTE_TOGGLE from a keyboard-muted snapshot (case 10): mute-off and then the
    saved gain are sent, the register holds the clamped saved gain, the mute bit and
    digital_muted are cleared, and keyboard_muted is left as it was (unlike cases 1,
    4 and 7, this case does not clear it).
  */
  lemma RemoteMuteFromKeyboardMuted(m: Machine, g: int)
    requires RegimeOf(m.prevKb, m.prevDig) == KeyboardMuted && m.savedGain == Some(g)
    ensures var o := Step(m, RcMuteToggle);
      && !o.raised
      && !o.m.digitalMuted && !o.m.hw.muted
      && HwGain(o.m.hw) == Clamp(g)
      && o.m.hw.sent == m.hw.sent + [SetMute(false), SetGain(EncodeGain(g))]
      && o.m.shown == m.shown + [Some(g)]
      && o.m.keyboardMuted == m.keyboardMuted
      && o.m.savedGain == m.savedGain
      && !o.m.skipSaveOnly
    ensures Step(m, RcMuteToggle) == Outcome(m.(digitalMuted := false, skipSaveOnly := false,
                                                hw := m.hw.(raw := EncodeGain(g), muted := false,
                                                            sent := m.hw.sent + [SetMute(false), SetGain(EncodeGain(g))]),
                                                shown := m.shown + [Some(g)]), false)
  {
  }

  /**
    RC_MUTE_TOGGLE from a digitally muted snapshot, or from normal with save-only
    blocked (case 12): the saved gain is displayed and the guard ends cleared;
    nothing is sent and no other field changes.
  */
  lemma RemoteMuteDisplayOnly(m: Machine)
    requires RegimeOf(m.prevKb, m.prevDig) == DigitalMuted
             || (RegimeOf(m.prevKb, m.prevDig) == Normal && m.skipSaveOnly)
    ensures Step(m, RcMuteToggle) == Outcome(m.(shown := m.shown + [m.savedGain], skipSaveOnly := false), false)
  {
  }

  /**
    Across the whole table, the one-shot guards and mute flags move only in the
    cases that own them: the echo guard is armed only by a keyboard mute from the
    normal regime and cleared only by the RC_VOL it guards; skipSaveOnly changes
    only on a remote mute toggle or a keyboard event while digitally muted;
    digital_muted only ever goes to false, together with the hardware bit;
    keyboard_muted is set only by a keyboard mute from normal and is otherwise
    only cleared, never by a remote mute toggle.
  */
  lemma FlagsChangeOnlyInTheirCases(m: Machine, ev: Event)
    ensures var o := Step(m, ev);
      && (o.m.skipNextRcVol != m.skipNextRcVol ==>
            (ev.KbMuteToggle? && RegimeOf(m.keyboardMuted, m.digitalMuted) == Normal && o.m.skipNextRcVol)
            || (ev.RcVol? && m.skipNextRcVol && !o.m.skipNextRcVol))
      && (o.m.skipSaveOnly != m.skipSaveOnly ==>
            ev.RcMuteToggle?
            || ((ev.KbVol? || ev.KbMuteToggle?) && RegimeOf(m.keyboardMuted, m.digitalMuted) == DigitalMuted))
      && (o.m.digitalMuted != m.digitalMuted ==> !o.m.digitalMuted && !o.m.hw.muted)
      && (o.m.keyboardMuted != m.keyboardMuted ==>
            (ev.KbMuteToggle? && RegimeOf(m.keyboardMuted, m.digitalMuted) == Normal && o.m.keyboardMuted)
            || (!o.m.keyboardMuted && !ev.RcMuteToggle?))
  {
    match ev
    case KbVol(delta) =>
      if RegimeOf(m.keyboardMuted, m.digitalMuted) == Normal {
        KbVolFromNormal(m, delta);
      }
    case KbMuteToggle =>
    case RcVol(gain) =>
      if !m.skipNextRcVol {
        RemoteVolumeCases(m, gain);
      }
    case RcMuteToggle =>
  }

  // ---------------------------------------------------------------- suspend_polling

  /** Handler code as far as the suspend counter sees it: I/O that may raise, or a suspended block. */
  datatype Scope = Io(raises: bool) | Suspend(body: seq<Scope>)

  /** The counter after a run, whether the run raised, and every value the counter took. */
  datatype ScopeRun = ScopeRun(count: int, raised: bool, seen: seq<int>)

  /**
    suspend_polling as a try/finally: entering a block increments the counter,
    leaving it decrements it whether the body finished or raised; a raise skips
    the rest of the enclosing block.
  */
  function RunScopes(count: int, scopes: seq<Scope>): ScopeRun
    decreases scopes
  {
    if scopes == [] then ScopeRun(count, false, [])
    else
      match scopes[0]
      case Io(raises) =>
        if raises then ScopeRun(count, true, []) else RunScopes(count, scopes[1..])
      case Suspend(body) =>
        var inner := RunScopes(count + 1, body);
        var exit := inner.count - 1;
        var here := [count + 1] + inner.seen + [exit];
        if inner.raised then ScopeRun(exit, true, here)
        else
          var rest := RunScopes(exit, scopes[1..]);
          ScopeRun(rest.count, rest.raised, here + rest.seen)
  }

  /**
    For any nesting of suspended blocks, on normal and on raising exits, the
    counter ends where it started and never drops below it (so never below zero).
  */
  lemma {:induction false} SuspendBalanced(count: int, scopes: seq<Scope>)
    ensures RunScopes(count, scopes).count == count
    ensures forall v :: v in RunScopes(count, scopes).seen ==> v >= count
    decreases scopes
  {
    if scopes != [] {
      match scopes[0]
      case Io(raises) =>
        if !raises {
          SuspendBalanced(count, scopes[1..]);
        }
      case Suspend(body) =>
        SuspendBalanced(count + 1, body);
        if !RunScopes(count + 1, body).raised {
          SuspendBalanced(count, scopes[1..]);
        }
    }
  }
}
