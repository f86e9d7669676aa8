/**
 * The incoming-call popup (src/components/agent/InboundCallPopup.tsx): it is
 * shown to an idle agent while the provider holds a waiting call, counts the
 * seconds since the call arrived, and offers Accept and Decline.
 *
 * The popup reads the provider's state (`TwilioProvider.ProviderState`); its
 * own state is the `accepting` flag, the `elapsed` counter and the start
 * time captured by the running one-second interval. `Date.now()` is the
 * parameter `now` (milliseconds); rendering is left out.
 */
module InboundCallPopup {
  import opened Wrappers
  import opened JsStrings
  import opened Telephony
  import opened TwilioProvider

  /** `show`: an agent's session, a waiting call, and no call of the agent's own. */
  predicate Show(session: Option<Session>, m: ProviderState) {
    && session.Some? && session.value.role == "agent"
    && m.view.pendingInbound.Some?
    && m.status.state == Idle
  }

  // ── Elapsed time ────────────────────────────────────────────────────────────

  /** `Math.floor((now - start) / 1000)`: whole seconds since `start`. */
  function ElapsedSince(start: int, now: int): (r: int)
    ensures r * 1000 <= now - start < r * 1000 + 1000
  {
    (now - start) / 1000
  }

  /** What the effect keeps in `elapsed`: 0 without a waiting call, else the seconds since it arrived. */
  function Elapsed(pending: Option<InboundCall>, now: int): int {
    match pending
    case None => 0
    case Some(call) => ElapsedSince(call.receivedAt, now)
  }

  /** The counter never goes backwards while the same call waits. */
  lemma ElapsedMonotone(start: int, now: int, later: int)
    requires now <= later
    ensures ElapsedSince(start, now) <= ElapsedSince(start, later)
  {
  }

  /** A call that arrived `k` whole seconds ago (plus less than a second) shows `k`. */
  lemma ElapsedExact(start: int, k: int, extra: int)
    requires 0 <= extra < 1000
    ensures ElapsedSince(start, start + k * 1000 + extra) == k
  {
  }

  // ── formatElapsed ───────────────────────────────────────────────────────────

  /** `formatElapsed(s)`: "42s" under a minute, else "3m 7s" (seconds not padded). */
  function FormatElapsed(s: int): string {
    if s < 60 then IntToString(s) + "s"
    else IntToString(s / 60) + "m " + IntToString(s % 60) + "s"
  }

  /** Reads back a text `FormatElapsed` writes for a non-negative count. */
  function ParseElapsed(t: string): Option<nat> {
    if t == [] || t[|t| - 1] != 's' then None
    else
      var body := t[..|t| - 1];
      if body != [] && AllDigits(body) then Some(ParseNat(body)) else ParseMinutes(body)
  }

  /** Reads "<minutes>m <seconds>" back as a number of seconds. */
  function ParseMinutes(body: string): Option<nat> {
    match IndexOf(body, "m ")
    case None => None
    case Some(k) => if k + 2 <= |body| then ParseAround(body, k) else None
  }

  /** The minutes before index `k` and the seconds after the two characters at `k`. */
  function ParseAround(body: string, k: nat): Option<nat>
    requires k + 2 <= |body|
  {
    var mins, secs := body[..k], body[k + 2..];
    if AllDigits(mins) && AllDigits(secs) then Some(ParseNat(mins) * 60 + ParseNat(secs)) else None
  }

  /** Under a minute: the count and "s". */
  lemma FormatElapsedUnderMinute(s: nat)
    requires s < 60
    ensures var t := FormatElapsed(s);
      t == NatToString(s) + "s" && |t| <= 3
  {
    assert NatToString(s) == NatToString(s / 10) + [DigitChar(s % 10)] || s < 10;
  }

  /** From a minute on: whole minutes, "m ", the remaining seconds below 60, "s". */
  lemma FormatElapsedMinutes(s: nat)
    requires s >= 60
    ensures FormatElapsed(s) == NatToString(s / 60) + "m " + NatToString(s % 60) + "s"
    ensures s % 60 < 60 && (s / 60) * 60 + s % 60 == s
  {
  }

  /** In "<digits>m <digits>", the first "m " is the one after the minutes. */
  lemma MarkerAfterMinutes(mins: string, secs: string)
    requires AllDigits(mins)
    ensures IndexOf(mins + "m " + secs, "m ") == Some(|mins|)
  {
    var body := mins + "m " + secs;
    assert body[|mins|..|mins| + 2] == "m ";
    assert OccursAt(body, "m ", |mins|);
    forall j | 0 <= j < |mins|
      ensures !OccursAt(body, "m ", j)
    {
      assert body[j] == mins[j];
    }
  }

  /** The digits on either side of index `k` are read back as minutes and seconds. */
  lemma ParseAroundDigits(body: string, k: nat, mins: string, secs: string)
    requires k + 2 <= |body| && AllDigits(mins) && AllDigits(secs)
    requires body[..k] == mins && body[k + 2..] == secs
    ensures ParseAround(body, k) == Some(ParseNat(mins) * 60 + ParseNat(secs))
  {
  }

  /** Reading "<minutes>m <seconds>" back gives the total. */
  lemma ParseMinutesSplit(mins: string, secs: string)
    requires AllDigits(mins) && AllDigits(secs)
    ensures ParseMinutes(mins + "m " + secs) == Some(ParseNat(mins) * 60 + ParseNat(secs))
  {
    var body := mins + "m " + secs;
    assert body[..|mins|] == mins;
    assert body[|mins| + 2..] == secs;
    MarkerAfterMinutes(mins, secs);
    ParseAroundDigits(body, |mins|, mins, secs);
  }

  /** A minutes-and-seconds text reads back as its total. */
  lemma ParseMinutesText(mins: string, secs: string)
    requires AllDigits(mins) && AllDigits(secs)
    ensures ParseElapsed(mins + "m " + secs + "s") == Some(ParseNat(mins) * 60 + ParseNat(secs))
  {
    var body := mins + "m " + secs;
    var t := body + "s";
    assert t[..|t| - 1] == body;
    assert !AllDigits(body) by {
      assert !IsDigit(body[|mins|]);
    }
    ParseMinutesSplit(mins, secs);
  }

  /** Under a minute the text reads back as the count. */
  lemma ParseUnderMinute(s: nat)
    requires s < 60
    ensures ParseElapsed(FormatElapsed(s)) == Some(s)
  {
    var t := FormatElapsed(s);
    assert t[..|t| - 1] == NatToString(s);
    ParseNatToString(s);
  }

  /** The text determines the count: reading it back gives `s`. */
  lemma ParseFormatElapsed(s: nat)
    ensures ParseElapsed(FormatElapsed(s)) == Some(s)
  {
    if s < 60 {
      ParseUnderMinute(s);
    } else {
      FormatElapsedMinutes(s);
      ParseMinutesText(NatToString(s / 60), NatToString(s % 60));
      ParseNatToString(s / 60);
      ParseNatToString(s % 60);
    }
  }

  /** Different counts never show the same text. */
  lemma FormatElapsedInjective(a: nat, b: nat)
    requires FormatElapsed(a) == FormatElapsed(b)
    ensures a == b
  {
    ParseFormatElapsed(a);
    ParseFormatElapsed(b);
  }

  // ── The popup's own state ───────────────────────────────────────────────────

  /** Accept takes the waiting call off the provider at once, so the popup hides as the claim starts. */
  lemma AcceptHidesPopup(session: Option<Session>, m: ProviderState)
    requires Inv(m) && Show(session, m)
    ensures Enabled(m, AcceptInboundEv)
    ensures AcceptInboundStep(m).async.claiming == m.async.claiming + 1
    ensures !Show(session, Step(m, AcceptInboundEv))
  {
  }

  /** Decline drops the waiting call from the provider: the popup hides and nothing is claimed. */
  lemma DeclineHidesPopup(session: Option<Session>, m: ProviderState)
    requires Inv(m) && Show(session, m)
    ensures Enabled(m, DismissInboundEv)
    ensures !Show(session, Step(m, DismissInboundEv))
    ensures Step(m, DismissInboundEv).async.claiming == m.async.claiming
  {
  }

  class Popup {
    var accepting: bool
    var elapsed: int
    /** The arrival time the running one-second interval counts from; `None` when no interval runs. */
    var ticking: Option<int>

    constructor ()
      ensures !accepting && elapsed == 0 && ticking.None?
    {
      accepting, elapsed, ticking := false, 0, None;
    }

    /**
     * The effect on `[pendingInbound]`: the old interval is cleared; without a
     * call the counter is 0, with one it counts from the call's arrival at once.
     */
    method PendingChanged(pending: Option<InboundCall>, now: int)
      modifies this
      ensures elapsed == Elapsed(pending, now)
      ensures ticking == (if pending.Some? then Some(pending.value.receivedAt) else None)
      ensures accepting == old(accepting)
    {
      match pending {
        case None =>
          elapsed := 0;
          ticking := None;
        case Some(call) =>
          ticking := Some(call.receivedAt);
          elapsed := ElapsedSince(call.receivedAt, now);
      }
    }

    /** The interval fires: the counter is recomputed from the clock, not incremented. */
    method Tick(now: int)
      modifies this
      ensures ticking.Some? ==> elapsed == ElapsedSince(ticking.value, now)
      ensures ticking.None? ==> elapsed == old(elapsed)
      ensures ticking == old(ticking) && accepting == old(accepting)
    {
      if ticking.Some? {
        elapsed := ElapsedSince(ticking.value, now);
      }
    }

    /**
     * `handleAccept` up to its `await`: `accepting` is set and the provider's
     * `acceptInbound` runs, which takes the waiting call and starts the claim.
     * Without a waiting call `acceptInbound` returns at once and the `finally`
     * clears `accepting` again.
     */
    method Accept(p: Provider) returns (claim: Option<string>)
      requires p.Valid()
      modifies this, p
      ensures accepting == claim.Some? && elapsed == old(elapsed) && ticking == old(ticking)
      ensures p.Valid() && p.State() == Step(old(p.State()), AcceptInboundEv)
      ensures claim == if old(p.view.pendingInbound).Some? then Some(old(p.view.pendingInbound).value.callSid) else None
    {
      accepting := true;
      claim := p.AcceptInbound();
      if claim.None? {
        accepting := false;
      }
    }

    /**
     * The claim request settles, however it ended (`acceptInbound` catches
     * its own errors, and the `finally` would run even if it did not).
     */
    method AcceptSettled(p: Provider, o: ClaimOutcome)
      requires p.Valid() && p.async.claiming > 0
      modifies this, p
      ensures !accepting && elapsed == old(elapsed) && ticking == old(ticking)
      ensures p.Valid() && p.State() == Step(old(p.State()), ClaimResponseEv(o))
    {
      p.ClaimResponse(o);
      accepting := false;
    }
  }
}
