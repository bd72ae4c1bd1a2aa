/**
  VolumeState: the controller's flags, saved gain, one-shot guards and suspend
  counter, updated in place by its handlers. Every method is proved against the
  function of the same role in Transitions; `shown` is the trace of values handed
  to the on-screen display callback.
*/
module Volume {
  import opened Wrappers
  import opened Codec
  import opened Channel
  import T = Transitions

  class VolumeState {
    var keyboardMuted: bool
    var digitalMuted: bool
    var skipSaveOnly: bool
    var ignorePollCount: int
    var savedGain: Option<int>
    var skipNextRcVol: bool
    var prevKb: bool
    var prevDig: bool
    var shown: seq<Option<int>>
    const dev: Device

    function Abstract(): T.Machine
      reads this, dev
    {
      T.Machine(keyboardMuted, digitalMuted, savedGain, skipNextRcVol, skipSaveOnly,
                ignorePollCount, prevKb, prevDig, dev.Abstract(), shown)
    }

    constructor (dev: Device)
      ensures this.dev == dev
      ensures Abstract() == T.Initial(dev.Abstract())
    {
      this.dev := dev;
      keyboardMuted, digitalMuted, skipSaveOnly := false, false, false;
      ignorePollCount := 0;
      savedGain := None;
      skipNextRcVol, prevKb, prevDig := false, false, false;
      shown := [];
    }

    // ------------------------------------------------------------ primitives

    method ShowOsd(v: Option<int>)
      modifies this`shown
      ensures shown == old(shown) + [v]
    {
      shown := shown + [v];
    }

    method CurrentGain() returns (g: int)
      modifies dev
      ensures g == HwGain(old(dev.Abstract())) && dev.Abstract() == HwRead(old(dev.Abstract()))
    {
      var muted;
      g, muted := dev.ReadGain();
    }

    method ApplyGain(g: Option<int>) returns (raised: bool)
      modifies this, dev
      ensures Abstract() == T.ApplyGain(old(Abstract()), g).m
      ensures raised == T.ApplyGain(old(Abstract()), g).raised
    {
      ignorePollCount := ignorePollCount + 1;    // suspend_polling: enter
      if g.None? {
        raised := true;                          // min(None, 0.0) fails before the write
      } else {
        dev.WriteGain(g.value);
        ShowOsd(g);
        raised := false;
      }
      ignorePollCount := ignorePollCount - 1;    // suspend_polling: finally
    }

    method ApplyDelta(delta: int)
      modifies this, dev
      ensures Abstract() == T.ApplyDelta(old(Abstract()), delta)
    {
      var cur := CurrentGain();
      var target := Clamp(cur + delta);
      var raised := ApplyGain(Some(target));
    }

    method ApplyDigitalUnmute()
      modifies this, dev
      ensures Abstract() == T.ApplyDigitalUnmute(old(Abstract()))
    {
      ignorePollCount := ignorePollCount + 1;    // suspend_polling: enter
      dev.WriteMute(false);
      ignorePollCount := ignorePollCount - 1;    // suspend_polling: finally
      digitalMuted := false;
    }

    method SaveCurrentGain()
      modifies this, dev
      ensures Abstract() == T.SaveCurrentGain(old(Abstract()))
    {
      var g := CurrentGain();
      savedGain := Some(g);
    }

    // ------------------------------------------------------------ the twelve cases

    /** Cases 1, 4 and 7. */
    method RestoreSavedGain() returns (raised: bool)
      modifies this, dev
      ensures Abstract() == T.RestoreSavedGain(old(Abstract())).m
      ensures raised == T.RestoreSavedGain(old(Abstract())).raised
    {
      raised := ApplyGain(savedGain);
      if !raised {
        keyboardMuted := false;
      }
    }

    method KbVolCase2(delta: int)
      modifies this, dev
      ensures Abstract() == T.KbVolCase2(old(Abstract()), delta)
    {
      ApplyDelta(delta);
      SaveCurrentGain();
    }

    method KbVolCase3() returns (raised: bool)
      modifies this, dev
      ensures Abstract() == T.KbVolCase3(old(Abstract())).m
      ensures raised == T.KbVolCase3(old(Abstract())).raised
    {
      ApplyDigitalUnmute();
      raised := ApplyGain(savedGain);
      if !raised {
        skipSaveOnly := true;
      }
    }

    method KbMuteCase5()
      modifies this, dev
      ensures Abstract() == T.KbMuteCase5(old(Abstract()))
    {
      skipNextRcVol := true;
      SaveCurrentGain();
      var raised := ApplyGain(Some(MuteFloor));
      keyboardMuted := true;
    }

    method KbMuteCase6()
      modifies this, dev
      ensures Abstract() == T.KbMuteCase6(old(Abstract()))
    {
      ApplyDigitalUnmute();
      ShowOsd(savedGain);
      skipSaveOnly := true;
    }

    method RcMuteCase10() returns (raised: bool)
      modifies this, dev
      ensures Abstract() == T.RcMuteCase10(old(Abstract())).m
      ensures raised == T.RcMuteCase10(old(Abstract())).raised
    {
      ApplyDigitalUnmute();
      raised := ApplyGain(savedGain);
    }

    method RcMuteCase11()
      modifies this, dev
      ensures Abstract() == T.RcMuteCase11(old(Abstract()))
    {
      ShowOsd(Some(MuteFloor));
      SaveCurrentGain();
    }

    method RcMuteCase12()
      modifies this
      ensures Abstract() == T.RcMuteCase12(old(Abstract()))
    {
      ShowOsd(savedGain);
      skipSaveOnly := true;
    }

    // ------------------------------------------------------------ dispatch

    /** handle_event: returns whether the handler ended by raising. */
    method HandleEvent(ev: T.Event) returns (raised: bool)
      modifies this, dev
      ensures Abstract() == T.Step(old(Abstract()), ev).m
      ensures raised == T.Step(old(Abstract()), ev).raised
    {
      var kb, dig;
      if ev.KbVol? || ev.KbMuteToggle? {
        kb, dig := keyboardMuted, digitalMuted;   // keyboard: the live flags
      } else {
        kb, dig := prevKb, prevDig;               // remote: the poller's snapshot
      }
      var regime := T.RegimeOf(kb, dig);
      raised := false;
      match ev {
        case KbVol(delta) =>
          if regime == T.KeyboardMuted {
            raised := RestoreSavedGain();
          } else if regime == T.Normal {
            KbVolCase2(delta);
          } else {
            raised := KbVolCase3();
          }
        case KbMuteToggle =>
          if regime == T.KeyboardMuted {
            raised := RestoreSavedGain();
          } else if regime == T.Normal {
            KbMuteCase5();
          } else {
            KbMuteCase6();
          }
        case RcVol(gain) =>
          if skipNextRcVol {
            skipNextRcVol := false;
            return;
          }
          if regime == T.KeyboardMuted {
            raised := RestoreSavedGain();
          } else if regime == T.Normal {
            ShowOsd(Some(gain));
          } else {
            ShowOsd(savedGain);
          }
        case RcMuteToggle =>
          if regime == T.KeyboardMuted {
            raised := RcMuteCase10();
          } else if regime == T.Normal && !skipSaveOnly {
            RcMuteCase11();
          } else {
            RcMuteCase12();
          }
          if !raised {
            skipSaveOnly := false;
          }
      }
    }
  }
}
