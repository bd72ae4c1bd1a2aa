/**
  One iteration of the poll loop: classify a gain reading as noise, as the echo of
  the controller's own write (suspended), as a remote mute toggle or as a remote
  volume change, and feed the corresponding RC_* event to the state machine. Also
  one attempt of the priming phase that sets the first saved gain.
*/
module Polling {
  import opened Wrappers
  import opened Codec
  import opened Channel
  import opened Transitions
  import Volume

  /** prev_db and prev_raw: the last reading the poller took as current. */
  datatype PollSnapshot = PollSnapshot(prevDb: Option<int>, prevRaw: Option<seq<byte>>)

  /** A cycle's result; `emitted` is the event handed to handle_event, if any. */
  datatype PollResult = PollResult(m: Machine, snapshot: PollSnapshot, keepPolling: bool, emitted: Option<Event>)

  /** Hand an event to the state machine; a handler that raises ends the poll thread before the snapshot update. */
  function Dispatch(m: Machine, p: PollSnapshot, next: PollSnapshot, ev: Event): PollResult
  {
    var o := Step(m, ev);
    if o.raised then PollResult(o.m, p, false, Some(ev)) else PollResult(o.m, next, true, Some(ev))
  }

  /** The steady-state body of the poll loop, for one result of the gain read. */
  function PollStep(m: Machine, p: PollSnapshot, reading: GainRead): (r: PollResult)
    ensures r.emitted.Some? ==> reading.Reading? && reading.gain != 0 && m.ignorePollCount <= 0
    ensures r.emitted == Some(RcMuteToggle) <==>
              reading.Reading? && reading.gain != 0 && m.ignorePollCount <= 0 && reading.muted != m.digitalMuted
    ensures !r.keepPolling ==> r.snapshot == p
    ensures r.m.ignorePollCount == m.ignorePollCount
  {
    match reading
    case ReadTimeout => PollResult(m, p, true, None)
    case ReadFailed => PollResult(m, p, false, None)
    case Reading(db, dig, raw) =>
      var next := PollSnapshot(Some(db), Some(raw));
      if db == 0 then PollResult(m, p, true, None)
      else if m.ignorePollCount > 0 then PollResult(m, next, true, None)
      else
        var flags := m.(keyboardMuted := db <= MuteFloor, digitalMuted := dig);
        var snap := flags.(prevKb := m.keyboardMuted, prevDig := m.digitalMuted);
        if dig != m.digitalMuted then Dispatch(snap, p, next, RcMuteToggle)
        else if Some(db) != p.prevDb then Dispatch(snap, p, next, RcVol(db))
        else PollResult(flags, next, true, None)
  }

  /** A read timeout is logged and the loop goes on; any other read failure ends it. Nothing changes. */
  lemma FailedReadsChangeNothing(m: Machine, p: PollSnapshot)
    ensures PollStep(m, p, ReadTimeout) == PollResult(m, p, true, None)
    ensures PollStep(m, p, ReadFailed) == PollResult(m, p, false, None)
  {
  }

  /** A 0.0 dB reading is noise: nothing changes. */
  lemma NoiseReadingIgnored(m: Machine, p: PollSnapshot, muted: bool, raw: seq<byte>)
    ensures PollStep(m, p, Reading(0, muted, raw)) == PollResult(m, p, true, None)
  {
  }

  /** While polling is suspended, only the snapshot follows the reading: no flag changes, no event. */
  lemma SuspendedCycleOnlyResyncs(m: Machine, p: PollSnapshot, db: int, muted: bool, raw: seq<byte>)
    requires db != 0 && m.ignorePollCount > 0
    ensures PollStep(m, p, Reading(db, muted, raw)) == PollResult(m, PollSnapshot(Some(db), Some(raw)), true, None)
  {
  }

  /**
    An active cycle sets keyboardMuted from the mute threshold and digitalMuted from
    the mute bit, then emits at most one event: RC_MUTE_TOGGLE when the bit flipped,
    otherwise RC_VOL when the gain moved; an event is handled with the flags as they
    were before the update as the snapshot regime.
  */
  lemma ActiveCycleEmitsAtMostOne(m: Machine, p: PollSnapshot, db: int, muted: bool, raw: seq<byte>)
    requires db != 0 && m.ignorePollCount <= 0
    ensures var r := PollStep(m, p, Reading(db, muted, raw));
      var flags := m.(keyboardMuted := db <= MuteFloor, digitalMuted := muted);
      var snap := flags.(prevKb := m.keyboardMuted, prevDig := m.digitalMuted);
      && r.emitted == (if muted != m.digitalMuted then Some(RcMuteToggle)
                       else if Some(db) != p.prevDb then Some(RcVol(db))
                       else None)
      && (r.emitted.None? ==> r.m == flags && r.keepPolling)
      && (r.emitted.Some? ==> r.m == Step(snap, r.emitted.value).m && r.keepPolling == !Step(snap, r.emitted.value).raised)
      && (r.keepPolling ==> r.snapshot == PollSnapshot(Some(db), Some(raw)))
  {
  }

  /**
    Two consecutive non-zero, different gain readings with the mute bit unchanged
    and polling not suspended: the second cycle emits exactly one RC_VOL, carrying
    the flags the first cycle left as the snapshot regime.
  */
  lemma GainChangeEmitsOneRcVol(m: Machine, p: PollSnapshot, a: int, b: int, muted: bool, rawA: seq<byte>, rawB: seq<byte>)
    requires a != 0 && b != 0 && a != b
    requires m.ignorePollCount == 0 && muted == m.digitalMuted && m.savedGain.Some?
    ensures var r1 := PollStep(m, p, Reading(a, muted, rawA));
      var r2 := PollStep(r1.m, r1.snapshot, Reading(b, muted, rawB));
      && r1.keepPolling && r1.emitted != Some(RcMuteToggle)
      && r2.emitted == Some(RcVol(b))
      && r2.keepPolling
      && r2.m == Step(r1.m.(keyboardMuted := b <= MuteFloor, prevKb := r1.m.keyboardMuted, prevDig := r1.m.digitalMuted), RcVol(b)).m
  {
    var r1 := PollStep(m, p, Reading(a, muted, rawA));
    var flags := m.(keyboardMuted := a <= MuteFloor, digitalMuted := muted);
    var snap := flags.(prevKb := m.keyboardMuted, prevDig := m.digitalMuted);
    if Some(a) != p.prevDb {
      assert r1 == Dispatch(snap, p, PollSnapshot(Some(a), Some(rawA)), RcVol(a));
      assert r1.m.digitalMuted == muted;
    } else {
      assert r1.m == flags;
    }
    assert r1.snapshot.prevDb == Some(a) && r1.m.digitalMuted == muted;
    assert r1.m.savedGain.Some?;
  }

  // ---------------------------------------------------------------- priming

  datatype PrimeOutcome =
    | Retry    // timeout or 0.0 dB noise: sleep and read again
    | Primed   // first valid gain taken
    | Died     // a read failure other than a timeout ends the poll thread

  datatype PrimeResult = PrimeResult(m: Machine, snapshot: PollSnapshot, outcome: PrimeOutcome)

  /**
    One attempt of the priming loop: the first non-zero reading becomes the saved
    gain and the snapshot, and is displayed; the mute bit is not looked at.
  */
  function PrimeStep(m: Machine, p: PollSnapshot, reading: GainRead): (r: PrimeResult)
    ensures r.outcome.Primed? <==> reading.Reading? && reading.gain != 0
    ensures r.outcome.Primed? ==>
              && r.m == m.(savedGain := Some(reading.gain), shown := m.shown + [Some(reading.gain)])
              && r.snapshot == PollSnapshot(Some(reading.gain), Some(reading.raw))
    ensures !r.outcome.Primed? ==> r.m == m && r.snapshot == p
    ensures r.outcome.Died? <==> reading.ReadFailed?
  {
    match reading
    case ReadTimeout => PrimeResult(m, p, Retry)
    case ReadFailed => PrimeResult(m, p, Died)
    case Reading(db, dig, raw) =>
      if db == 0 then PrimeResult(m, p, Retry)
      else PrimeResult(m.(savedGain := Some(db), shown := m.shown + [Some(db)]), PollSnapshot(Some(db), Some(raw)), Primed)
  }

  // ---------------------------------------------------------------- the poller

  class Poller {
    var prevDb: Option<int>
    var prevRaw: Option<seq<byte>>
    const state: Volume.VolumeState

    function Snapshot(): PollSnapshot
      reads this
    {
      PollSnapshot(prevDb, prevRaw)
    }

    constructor (state: Volume.VolumeState)
      ensures this.state == state && Snapshot() == PollSnapshot(None, None)
    {
      this.state := state;
      prevDb, prevRaw := None, None;
    }

    method Prime(reading: GainRead) returns (outcome: PrimeOutcome)
      modifies this, state
      ensures var r := PrimeStep(old(state.Abstract()), old(Snapshot()), reading);
        state.Abstract() == r.m && Snapshot() == r.snapshot && outcome == r.outcome
    {
      match reading {
        case ReadTimeout =>
          outcome := Retry;
        case ReadFailed =>
          outcome := Died;
        case Reading(db, dig, raw) =>
          if db == 0 {
            outcome := Retry;
          } else {
            prevDb, prevRaw := Some(db), Some(raw);
            state.savedGain := Some(db);
            state.ShowOsd(Some(db));
            outcome := Primed;
          }
      }
    }

    /** Hand one RC_* event to the state machine with the snapshot regime set; on success take the reading as current. */
    method Emit(ev: Event, oldKb: bool, oldDig: bool, next: PollSnapshot) returns (keepPolling: bool)
      modifies this, state, state.dev
      ensures state.Abstract() == Step(old(state.Abstract()).(prevKb := oldKb, prevDig := oldDig), ev).m
      ensures keepPolling == !Step(old(state.Abstract()).(prevKb := oldKb, prevDig := oldDig), ev).raised
      ensures Snapshot() == if keepPolling then next else old(Snapshot())
    {
      state.prevKb, state.prevDig := oldKb, oldDig;
      var raised := state.HandleEvent(ev);
      keepPolling := !raised;
      if keepPolling {
        prevDb, prevRaw := next.prevDb, next.prevRaw;
      }
    }

    method PollCycle(reading: GainRead) returns (keepPolling: bool, emitted: Option<Event>)
      modifies this, state, state.dev
      ensures var r := PollStep(old(state.Abstract()), old(Snapshot()), reading);
        && state.Abstract() == r.m && Snapshot() == r.snapshot
        && keepPolling == r.keepPolling && emitted == r.emitted
    {
      emitted := None;
      match reading {
        case ReadTimeout =>
          keepPolling := true;
        case ReadFailed =>
          keepPolling := false;
        case Reading(db, dig, raw) =>
          if db == 0 {
            return true, None;
          }
          if state.ignorePollCount > 0 {
            prevDb, prevRaw := Some(db), Some(raw);
            return true, None;
          }
          var next := PollSnapshot(Some(db), Some(raw));
          var oldKb, oldDig := state.keyboardMuted, state.digitalMuted;
          state.keyboardMuted := db <= MuteFloor;
          state.digitalMuted := dig;
          var toggled := state.digitalMuted != oldDig;
          if toggled {
            emitted := Some(RcMuteToggle);
            keepPolling := Emit(RcMuteToggle, oldKb, oldDig, next);
          } else if Some(db) != prevDb {
            emitted := Some(RcVol(db));
            keepPolling := Emit(RcVol(db), oldKb, oldDig, next);
          } else {
            prevDb, prevRaw := next.prevDb, next.prevRaw;
            keepPolling := true;
          }
      }
    }
  }
}
