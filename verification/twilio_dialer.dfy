/**
 * The lead-page dialer (src/components/agent/TwilioDialer.tsx): a Voice SDK
 * device whose `connect` and `disconnect` events start and stop a call
 * timer, with hang-up and mute buttons and an `mm:ss` duration display.
 *
 * The device and its connection are reduced to what the handlers test: is
 * there a device, is there a connection. The one-second interval is the
 * flag `timerSet` (`timerRef.current` is non-null) plus the number of
 * intervals that were started while another was still referenced and so can
 * no longer be cleared; each `Tick` is one firing of some live interval.
 */
module TwilioDialer {
  import opened Wrappers
  import opened JsStrings

  // ── formatDuration ──────────────────────────────────────────────────────────

  /** `formatDuration(seconds)`: minutes and seconds, each padded to two digits with "0". */
  function FormatDuration(seconds: nat): string {
    PadStart(NatToString(seconds / 60), 2, '0') + ":" + PadStart(NatToString(seconds % 60), 2, '0')
  }

  /** Reads back an "m…m:ss" text as a number of seconds. */
  function ParseDuration(t: string): Option<nat> {
    if |t| < 3 || t[|t| - 3] != ':' then None
    else
      var mins, secs := t[..|t| - 3], t[|t| - 2..];
      if AllDigits(mins) && AllDigits(secs) then Some(ParseNat(mins) * 60 + ParseNat(secs)) else None
  }

  /** A number below 100 has at most two digits. */
  lemma TwoDigitsAtMost(n: nat)
    requires n < 100
    ensures |NatToString(n)| <= 2
    ensures n >= 10 ==> NatToString(n) == [DigitChar(n / 10), DigitChar(n % 10)]
  {
    if n >= 10 {
      assert NatToString(n / 10) == [DigitChar(n / 10)];
    }
  }

  /** The seconds field of the display: two characters, "00" to "59". */
  lemma SecondsFieldText(sec: nat)
    requires sec < 60
    ensures var f := PadStart(NatToString(sec), 2, '0');
      && |f| == 2 && '0' <= f[0] <= '5' && IsDigit(f[1])
      && AllDigits(f) && ParseNat(f) == sec
  {
    TwoDigitsAtMost(sec);
    PaddedNatValue(sec, 2);
    var f := PadStart(NatToString(sec), 2, '0');
    if sec < 10 {
      assert f == ['0'] + NatToString(sec);
    }
  }

  /** Splitting at the colon three characters from the end gives back the two fields. */
  lemma ParseAroundColon(t: string, mins: string, secs: string)
    requires |t| >= 3 && t[|t| - 3] == ':' && AllDigits(mins) && AllDigits(secs)
    requires t[..|t| - 3] == mins && t[|t| - 2..] == secs
    ensures ParseDuration(t) == Some(ParseNat(mins) * 60 + ParseNat(secs))
  {
  }

  /**
   * The display for `seconds`: a colon, then a seconds field "00".."59"; the
   * minutes field before the colon is at least two digits and is never cut.
   */
  lemma DurationFields(seconds: nat)
    ensures var t := FormatDuration(seconds);
      && |t| >= 5 && t[|t| - 3] == ':'
      && '0' <= t[|t| - 2] <= '5' && IsDigit(t[|t| - 1])
      && t[..|t| - 3] == PadStart(NatToString(seconds / 60), 2, '0')
      && EndsWith(t[..|t| - 3], NatToString(seconds / 60))
  {
    var m := PadStart(NatToString(seconds / 60), 2, '0');
    var f := PadStart(NatToString(seconds % 60), 2, '0');
    SecondsFieldText(seconds % 60);
    var t := FormatDuration(seconds);
    assert t == m + ":" + f;
    assert t[..|t| - 3] == m;
  }

  /** The display determines the duration: reading it back gives `seconds`. */
  lemma ParseFormatDuration(seconds: nat)
    ensures ParseDuration(FormatDuration(seconds)) == Some(seconds)
  {
    var m := PadStart(NatToString(seconds / 60), 2, '0');
    var f := PadStart(NatToString(seconds % 60), 2, '0');
    SecondsFieldText(seconds % 60);
    PaddedNatValue(seconds / 60, 2);
    var t := FormatDuration(seconds);
    assert t == m + ":" + f;
    assert t[..|t| - 3] == m;
    assert t[|t| - 2..] == f;
    ParseAroundColon(t, m, f);
  }

  /** From 100 minutes on, the minutes field is the full decimal count. */
  lemma LongCallMinutes(seconds: nat)
    requires seconds >= 6000
    ensures var t := FormatDuration(seconds);
      t[..|t| - 3] == NatToString(seconds / 60) && |t| >= 6
  {
    assert NatToString(seconds / 60) == NatToString(seconds / 60 / 10) + [DigitChar(seconds / 60 % 10)];
    assert |NatToString(seconds / 60 / 10)| >= 2;
    DurationFields(seconds);
  }

  // ── The component's state ───────────────────────────────────────────────────

  datatype DialerState = DialerState(
    deviceReady: bool,
    connection: bool,
    isCalling: bool,
    isMuted: bool,
    callDuration: nat,
    timerSet: bool,
    leakedIntervals: nat)

  const Initial := DialerState(false, false, false, false, 0, false, 0)

  /** How many one-second intervals are running. */
  function LiveIntervals(d: DialerState): nat {
    d.leakedIntervals + (if d.timerSet then 1 else 0)
  }

  /** `startTimer`: the counter restarts at 0 and a new interval is referenced (an old one is lost, not cleared). */
  function StartTimerStep(d: DialerState): DialerState {
    d.(callDuration := 0, timerSet := true, leakedIntervals := LiveIntervals(d))
  }

  /** `stopTimer`: the referenced interval, if any, is cleared. */
  function StopTimerStep(d: DialerState): DialerState {
    d.(timerSet := false)
  }

  datatype Event =
    | DeviceCreated            // `initializeDevice` got a token and built the device
    | CallPlaced(ok: bool)     // `handleCall`: `device.connect` resolved (`ok`) or threw
    | ConnectEv                // the device's `connect` event
    | DisconnectEv             // the device's `disconnect` event
    | HangupEv                 // `handleHangup`
    | MuteEv                   // `handleMute`
    | TickEv                   // one firing of a live interval

  /** What each handler does to the state. */
  function Step(d: DialerState, e: Event): DialerState {
    match e
    case DeviceCreated => d.(deviceReady := true)
    case CallPlaced(ok) => if d.deviceReady && ok then d.(connection := true) else d
    case ConnectEv => StartTimerStep(d.(connection := true, isCalling := true))
    case DisconnectEv => StopTimerStep(d.(connection := false, isCalling := false))
    case HangupEv => d
    case MuteEv => if d.connection then d.(isMuted := !d.isMuted) else d
    case TickEv => if LiveIntervals(d) > 0 then d.(callDuration := d.callDuration + 1) else d
  }

  function Run(d: DialerState, es: seq<Event>): DialerState
    decreases |es|
  {
    if es == [] then d else Run(Step(d, es[0]), es[1..])
  }

  /** The duration is shown exactly while a call is up, the timer runs exactly then, and a call has a connection. */
  predicate Inv(d: DialerState) {
    && d.isCalling == d.timerSet
    && (d.isCalling ==> d.connection)
  }

  lemma StepKeepsInv(d: DialerState, e: Event)
    requires Inv(d)
    ensures Inv(Step(d, e))
  {
  }

  lemma {:induction false} RunKeepsInv(d: DialerState, es: seq<Event>)
    requires Inv(d)
    ensures Inv(Run(d, es))
    decreases |es|
  {
    if es != [] {
      StepKeepsInv(d, es[0]);
      RunKeepsInv(Step(d, es[0]), es[1..]);
    }
  }

  /** `connect` starts the display at 0:00 and the timer with it. */
  lemma ConnectStartsTimer(d: DialerState)
    ensures var d' := Step(d, ConnectEv);
      d'.isCalling && d'.connection && d'.timerSet && d'.callDuration == 0 && FormatDuration(d'.callDuration) == "00:00"
    ensures LiveIntervals(Step(d, ConnectEv)) == LiveIntervals(d) + 1
  {
  }

  /** `disconnect` drops the connection, hides the display and clears the referenced interval. */
  lemma DisconnectStopsTimer(d: DialerState)
    ensures var d' := Step(d, DisconnectEv);
      !d'.connection && !d'.isCalling && !d'.timerSet && d'.leakedIntervals == d.leakedIntervals
    ensures d.leakedIntervals == 0 ==> Step(Step(d, DisconnectEv), TickEv) == Step(d, DisconnectEv)
    ensures d.isMuted == Step(d, DisconnectEv).isMuted
  {
  }

  /** Without a connection the hang-up and mute buttons change nothing. */
  lemma NoConnectionNoop(d: DialerState)
    requires !d.connection
    ensures Step(d, HangupEv) == d && Step(d, MuteEv) == d
  {
  }

  /** With a connection, mute flips `isMuted` and nothing else; pressing it twice restores the state. */
  lemma MuteFlips(d: DialerState)
    requires d.connection
    ensures Step(d, MuteEv).isMuted == !d.isMuted
    ensures Step(d, MuteEv).(isMuted := d.isMuted) == d
    ensures Step(Step(d, MuteEv), MuteEv) == d
  {
  }

  /** `n` ticks of a single running timer. */
  function Ticks(n: nat): seq<Event> {
    if n == 0 then [] else Ticks(n - 1) + [TickEv]
  }

  /** Each firing adds one second, so `n` firings after a `connect` show `n` seconds. */
  lemma {:induction false} TicksCount(d: DialerState, n: nat)
    requires LiveIntervals(d) > 0
    ensures Run(d, Ticks(n)) == d.(callDuration := d.callDuration + n)
    decreases n
  {
    if n > 0 {
      TicksCount(d, n - 1);
      RunAppend(d, Ticks(n - 1), [TickEv]);
    }
  }

  lemma {:induction false} RunAppend(d: DialerState, es: seq<Event>, more: seq<Event>)
    ensures Run(d, es + more) == Run(Run(d, es), more)
    decreases |es|
  {
    if es == [] {
      assert es + more == more;
    } else {
      assert (es + more)[1..] == es[1..] + more;
      RunAppend(Step(d, es[0]), es[1..], more);
    }
  }

  /**
   * A second `connect` before a `disconnect` loses the first interval: after
   * the call ends one interval is still running, and it goes on counting
   * while no call is shown; the next call's display then counts twice per second.
   */
  lemma SecondConnectLeaksInterval(d: DialerState)
    requires Inv(d) && !d.isCalling && d.leakedIntervals == 0
    ensures var e := Run(d, [ConnectEv, ConnectEv, DisconnectEv]);
      && !e.isCalling && e.leakedIntervals == 1 && LiveIntervals(e) == 1
      && Step(e, TickEv).callDuration == e.callDuration + 1
    ensures LiveIntervals(Run(d, [ConnectEv, ConnectEv, DisconnectEv, ConnectEv])) == 2
  {
    var e1 := Step(d, ConnectEv);
    var e2 := Step(e1, ConnectEv);
    var e3 := Step(e2, DisconnectEv);
    assert Run(d, [ConnectEv, ConnectEv, DisconnectEv]) == Run(e3, []) by {
      assert [ConnectEv, ConnectEv, DisconnectEv][1..] == [ConnectEv, DisconnectEv];
      assert [ConnectEv, DisconnectEv][1..] == [DisconnectEv];
    }
    assert Run(d, [ConnectEv, ConnectEv, DisconnectEv, ConnectEv]) == Run(Step(e3, ConnectEv), []) by {
      assert [ConnectEv, ConnectEv, DisconnectEv, ConnectEv][1..] == [ConnectEv, DisconnectEv, ConnectEv];
      assert [ConnectEv, DisconnectEv, ConnectEv][1..] == [DisconnectEv, ConnectEv];
      assert [DisconnectEv, ConnectEv][1..] == [ConnectEv];
    }
  }

  class Dialer {
    var deviceReady: bool
    var connection: bool
    var isCalling: bool
    var isMuted: bool
    var callDuration: nat
    var timerSet: bool
    var leakedIntervals: nat

    function State(): DialerState
      reads this
    {
      DialerState(deviceReady, connection, isCalling, isMuted, callDuration, timerSet, leakedIntervals)
    }

    ghost predicate Valid()
      reads this
    {
      Inv(State())
    }

    constructor ()
      ensures State() == Initial && Valid()
    {
      deviceReady, connection, isCalling, isMuted := false, false, false, false;
      callDuration, timerSet, leakedIntervals := 0, false, 0;
    }

    /** `startTimer`. */
    method StartTimer()
      modifies this
      ensures State() == StartTimerStep(old(State()))
    {
      if timerSet {
        leakedIntervals := leakedIntervals + 1;
      }
      callDuration := 0;
      timerSet := true;
    }

    /** `stopTimer`. */
    method StopTimer()
      modifies this
      ensures State() == StopTimerStep(old(State()))
    {
      if timerSet {
        timerSet := false;
      }
    }

    /** `initializeDevice` once the token came back and the device was built. */
    method DeviceCreated()
      requires Valid()
      modifies this
      ensures Valid() && State() == Step(old(State()), Event.DeviceCreated)
    {
      deviceReady := true;
    }

    /** `handleCall`: without a device nothing happens; otherwise the call's connection is kept if `connect` resolved. */
    method HandleCall(ok: bool)
      requires Valid()
      modifies this
      ensures Valid() && State() == Step(old(State()), CallPlaced(ok))
    {
      if !deviceReady {
        return;
      }
      if ok {
        connection := true;
      }
    }

    /** The device's `connect` event. */
    method OnConnect()
      requires Valid()
      modifies this
      ensures Valid() && State() == Step(old(State()), ConnectEv)
    {
      connection := true;
      isCalling := true;
      StartTimer();
    }

    /** The device's `disconnect` event. */
    method OnDisconnect()
      requires Valid()
      modifies this
      ensures Valid() && State() == Step(old(State()), DisconnectEv)
    {
      connection := false;
      isCalling := false;
      StopTimer();
    }

    /** `handleHangup`: asks the connection, if any, to disconnect; the state changes only on its `disconnect` event. */
    method HandleHangup() returns (disconnect: bool)
      requires Valid()
      ensures disconnect == connection
    {
      disconnect := connection;
    }

    /** `handleMute`: with a connection, mutes it to `!isMuted` and flips the flag; returns the value sent. */
    method HandleMute() returns (mute: Option<bool>)
      requires Valid()
      modifies this
      ensures Valid() && State() == Step(old(State()), MuteEv)
      ensures mute == if old(connection) then Some(!old(isMuted)) else None
    {
      mute := None;
      if connection {
        mute := Some(!isMuted);
        isMuted := !isMuted;
      }
    }

    /** One firing of a live interval. */
    method Tick()
      requires Valid()
      modifies this
      ensures Valid() && State() == Step(old(State()), TickEv)
    {
      if LiveIntervals(State()) > 0 {
        callDuration := callDuration + 1;
      }
    }
  }
}
