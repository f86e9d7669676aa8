/**
 * The browser-side call state machine (src/components/providers/TwilioProvider.tsx).
 *
 * The provider keeps React state and refs. They are grouped here in four
 * records:
 *  - `CallStatus`: the `callStatus` state itself;
 *  - `View`: the rest of the React state (`callEndReason`, `available`,
 *    `deviceReady`, `micEnabled`, `error`, `pendingInbound`);
 *  - `Refs`: the refs. `call` is `callRef.current != null`; `durationTimer`
 *    says that the interval `durationRef` names is still ticking, and
 *    `leakedIntervals` counts duration intervals that still tick although no
 *    ref names them any more (the ref is reassigned without clearing, lines
 *    158 and 211), so one second adds `TickRate` to the duration;
 *    `customerPoll`, `customerSid`, `outboundPending` are the customer-poll
 *    refs and `endReasonTimer` the end-reason timeout;
 *  - `Async`: work that has been started and whose callbacks may still run:
 *    calls whose listeners were attached (`listened`), fetches sent and not yet
 *    answered (`pollsInFlight`, `initiating`, `inboundInFlight`, `claiming`)
 *    and the inbound-poll interval (`inboundPolling`).
 *
 * Every handler is one atomic step. The `*Step` functions are the handlers on
 * `ProviderState`, `Handle` dispatches an `Event`, and `Settle` re-runs the
 * inbound-poll effect when one of its dependencies (`available`,
 * `callStatus.state`) changed. The class `Provider` performs the same steps
 * on its fields.
 */
module TwilioProvider {
  import opened Wrappers
  import opened JsStrings

  datatype CallState = Idle | Dialing | Ringing | Connected
  datatype Direction = Outbound | Inbound
  datatype CallStatus = CallStatus(state: CallState, direction: Option<Direction>, duration: int, callSid: Option<string>)

  const IdleStatus := CallStatus(Idle, None, 0, None)

  /** A waiting call as the inbound poll reports it (`receivedAt` already as milliseconds). */
  datatype InboundCall = InboundCall(callSid: string, conferenceName: string, callerNumber: string, receivedAt: int)

  /** `END_REASON`: the label shown for a finished customer leg. */
  function EndReason(status: string): Option<string> {
    if status == "busy" then Some("Line busy")
    else if status == "no-answer" then Some("No answer")
    else if status == "canceled" then Some("Call cancelled")
    else if status == "failed" then Some("Call failed")
    else if status == "completed" then Some("Call ended")
    else None
  }

  /** `TERMINAL_STATUSES`. */
  const TerminalStatuses: set<string> := {"busy", "no-answer", "canceled", "failed", "completed"}

  /** The two tables agree: a status is terminal exactly when it has a label, so the default is never used. */
  lemma TerminalIffLabelled(status: string)
    ensures status in TerminalStatuses <==> EndReason(status).Some?
    ensures status !in TerminalStatuses ==> EndReason(status).GetOr("Call ended") == "Call ended" && status != "busy"
  {
  }

  datatype View = View(
    callEndReason: Option<string>,
    available: bool,
    deviceReady: bool,
    micEnabled: bool,
    error: Option<string>,
    pendingInbound: Option<InboundCall>)

  datatype Refs = Refs(
    call: bool,
    durationTimer: bool,
    leakedIntervals: nat,
    customerPoll: bool,
    customerSid: Option<string>,
    outboundPending: bool,
    endReasonTimer: bool)

  datatype Async = Async(
    listened: nat,
    pollsInFlight: nat,
    initiating: nat,
    inboundPolling: bool,
    inboundInFlight: nat,
    claiming: nat)

  datatype ProviderState = ProviderState(status: CallStatus, view: View, refs: Refs, async: Async)

  /** The state of a freshly mounted provider. */
  const Initial := ProviderState(IdleStatus, View(None, false, false, true, None, None),
                                 Refs(false, false, 0, false, None, false, false), Async(0, 0, 0, false, 0, 0))

  /** How many duration intervals tick each second. */
  function TickRate(m: ProviderState): nat {
    m.refs.leakedIntervals + if m.refs.durationTimer then 1 else 0
  }

  // ── Helpers of the provider ────────────────────────────────────────────────

  /** `resetToIdle`. */
  function ResetToIdleStep(m: ProviderState): ProviderState {
    m.(refs := m.refs.(durationTimer := false, customerPoll := false, customerSid := None,
                       outboundPending := false, call := false),
       status := IdleStatus)
  }

  /** `showEndReason(reason)`: show it and (re)start the 4-second timeout that hides it. */
  function ShowEndReasonStep(m: ProviderState, reason: string): ProviderState {
    m.(view := m.view.(callEndReason := Some(reason)), refs := m.refs.(endReasonTimer := true))
  }

  /** `stopCustomerPoll`. */
  function StopCustomerPollStep(m: ProviderState): ProviderState {
    m.(refs := m.refs.(customerPoll := false, customerSid := None, outboundPending := false))
  }

  /** `durationRef.current = setInterval(...)`: a ticking interval the ref named is now leaked. */
  function StartDurationTimerStep(m: ProviderState): ProviderState {
    m.(refs := m.refs.(leakedIntervals := m.refs.leakedIntervals + (if m.refs.durationTimer then 1 else 0),
                       durationTimer := true))
  }

  /** The part of `poll` before its `await`: read the tracked SID and send a fetch if it is truthy. */
  function PollReadStep(m: ProviderState): ProviderState {
    if Truthy(m.refs.customerSid) then m.(async := m.async.(pollsInFlight := m.async.pollsInFlight + 1)) else m
  }

  /** `startCustomerPoll(callSid)`: track it, poll once at once, then every 2 s. */
  function StartCustomerPollStep(m: ProviderState, callSid: string): ProviderState {
    var tracked := m.(refs := m.refs.(customerSid := Some(callSid), outboundPending := true));
    var polled := PollReadStep(tracked);
    polled.(refs := polled.refs.(customerPoll := true))
  }

  /** The inbound-poll effect, run when `available` or `callStatus.state` changed. */
  function InboundEffectStep(m: ProviderState): ProviderState {
    if !m.view.available || m.status.state != Idle then
      m.(view := m.view.(pendingInbound := None), async := m.async.(inboundPolling := false))
    else m.(async := m.async.(inboundPolling := true, inboundInFlight := m.async.inboundInFlight + 1))
  }

  /** React re-runs the inbound-poll effect after a step that changed one of its dependencies. */
  function Settle(before: ProviderState, after: ProviderState): ProviderState {
    if after.view.available != before.view.available || after.status.state != before.status.state then
      InboundEffectStep(after)
    else after
  }

  // ── Handlers ───────────────────────────────────────────────────────────────

  /** The synchronous part of `initiateCall`. */
  function InitiateCallStep(m: ProviderState): ProviderState {
    if !m.view.deviceReady then m.(view := m.view.(error := Some("Device not ready. Please wait.")))
    else if m.status.state != Idle then m
    else m.(view := m.view.(error := None), status := m.status.(state := Dialing, direction := Some(Outbound)),
            async := m.async.(initiating := m.async.initiating + 1))
  }

  /** How the `initiate-call` request ended: an ok reply, a reply that is not ok, or a thrown error. */
  datatype InitiateOutcome = InitOk(customerCallSid: string) | InitRejected(error: Option<string>) | InitThrew(message: string)

  /** The part of `initiateCall` after its `await`. */
  function InitiateResponseStep(m: ProviderState, o: InitiateOutcome): ProviderState
    requires m.async.initiating > 0
  {
    var m1 := m.(async := m.async.(initiating := m.async.initiating - 1));
    match o
    case InitOk(sid) => StartCustomerPollStep(m1.(status := m1.status.(state := Ringing, callSid := Some(sid))), sid)
    case InitRejected(err) =>
      m1.(view := m1.view.(error := Some(if Truthy(err) then err.value else "Failed to initiate call")),
          status := IdleStatus)
    case InitThrew(msg) => m1.(view := m1.view.(error := Some("Failed to start call: " + msg)), status := IdleStatus)
  }

  /** How a call-status fetch ended: a reply that is not ok, a network error, or a reported status. */
  datatype PollOutcome = PollHttpError | PollNetworkError | Reported(callStatus: string)

  predicate EndsCustomerLeg(o: PollOutcome) {
    o.Reported? && o.callStatus in TerminalStatuses && o.callStatus != "in-progress"
  }

  /** The part of `poll` after its `await`: applied whatever happened meanwhile. */
  function PollResultStep(m: ProviderState, o: PollOutcome): ProviderState
    requires m.async.pollsInFlight > 0
  {
    var m1 := m.(async := m.async.(pollsInFlight := m.async.pollsInFlight - 1));
    if o == Reported("in-progress") then
      var stopped := StopCustomerPollStep(m1);
      StartDurationTimerStep(stopped.(status := stopped.status.(state := Connected)))
    else if EndsCustomerLeg(o) then
      ResetToIdleStep(ShowEndReasonStep(StopCustomerPollStep(m1), EndReason(o.callStatus).GetOr("Call ended")))
    else m1
  }

  /** Whether that result hangs up the agent's leg (`callRef.current?.disconnect()`). */
  predicate PollResultDisconnects(m: ProviderState, o: PollOutcome) {
    EndsCustomerLeg(o) && m.refs.call
  }

  /** A call's `accept` event (the listener's direction is always "inbound", line 280). */
  function OnAcceptStep(m: ProviderState): ProviderState {
    if m.refs.outboundPending then m
    else StartDurationTimerStep(m.(status := m.status.(state := Connected, direction := Some(Inbound))))
  }

  /** A call's `disconnect` or `cancel` event. */
  function OnCallEndStep(m: ProviderState): ProviderState {
    ResetToIdleStep(StopCustomerPollStep(m))
  }

  /** A call's `error` event. */
  function OnCallErrorStep(m: ProviderState, message: string): ProviderState {
    var stopped := StopCustomerPollStep(m);
    ResetToIdleStep(stopped.(view := stopped.view.(error := Some("Call error: " + message))))
  }

  /** The device's `incoming` event: take the call, listen to it, show it ringing, accept it. */
  function OnIncomingStep(m: ProviderState): ProviderState {
    m.(refs := m.refs.(call := true), async := m.async.(listened := m.async.listened + 1),
       status := CallStatus(Ringing, Some(Inbound), 0, None))
  }

  /** `endCall`: stop polling; the hang-up itself is left to the call's `disconnect` event. */
  function EndCallStep(m: ProviderState): ProviderState {
    StopCustomerPollStep(m)
  }

  /** `toggleMic`. */
  function ToggleMicStep(m: ProviderState): ProviderState {
    if !m.refs.call then m else m.(view := m.view.(micEnabled := !m.view.micEnabled))
  }

  /** One second: every ticking duration interval adds one. */
  function TickStep(m: ProviderState): ProviderState {
    m.(status := m.status.(duration := m.status.duration + TickRate(m)))
  }

  /** The end-reason timeout fires. */
  function EndReasonExpiredStep(m: ProviderState): ProviderState {
    m.(view := m.view.(callEndReason := None), refs := m.refs.(endReasonTimer := false))
  }

  /** The inbound poll's interval fires: another fetch is sent. */
  function InboundPollReadStep(m: ProviderState): ProviderState {
    m.(async := m.async.(inboundInFlight := m.async.inboundInFlight + 1))
  }

  /** How an inbound-poll fetch ended. */
  datatype InboundPollOutcome = InboundHttpError | InboundNetworkError | WaitingCalls(calls: seq<InboundCall>)

  /** The part of the inbound poll after its `await`: applied whatever happened meanwhile. */
  function InboundPollResultStep(m: ProviderState, o: InboundPollOutcome): ProviderState
    requires m.async.inboundInFlight > 0
  {
    var m1 := m.(async := m.async.(inboundInFlight := m.async.inboundInFlight - 1));
    match o
    case WaitingCalls(calls) => m1.(view := m1.view.(pendingInbound := if |calls| > 0 then Some(calls[0]) else None))
    case _ => m1
  }

  /** The synchronous part of `acceptInbound`. */
  function AcceptInboundStep(m: ProviderState): ProviderState {
    if m.view.pendingInbound.None? then m
    else m.(view := m.view.(pendingInbound := None), async := m.async.(claiming := m.async.claiming + 1))
  }

  /** How the `claim-inbound` request ended. */
  datatype ClaimOutcome = ClaimOk | ClaimRejected(error: Option<string>) | ClaimThrew(message: string)

  /** The part of `acceptInbound` after its `await`. */
  function ClaimResponseStep(m: ProviderState, o: ClaimOutcome): ProviderState
    requires m.async.claiming > 0
  {
    var m1 := m.(async := m.async.(claiming := m.async.claiming - 1));
    match o
    case ClaimOk => m1
    case ClaimRejected(err) => m1.(view := m1.view.(error := Some(err.GetOr("Failed to claim call"))))
    case ClaimThrew(msg) => m1.(view := m1.view.(error := Some("Failed to accept: " + msg)))
  }

  // ── Events ─────────────────────────────────────────────────────────────────

  datatype Event =
    | InitiateCallEv
    | InitiateResponseEv(init: InitiateOutcome)
    | PollReadEv
    | PollResultEv(poll: PollOutcome)
    | AcceptEv
    | DisconnectEv
    | CancelEv
    | CallErrorEv(callMessage: string)
    | IncomingEv
    | EndCallEv
    | ToggleMicEv
    | TickEv
    | EndReasonExpiredEv
    | InboundPollReadEv
    | InboundPollResultEv(inbound: InboundPollOutcome)
    | AcceptInboundEv
    | ClaimResponseEv(claim: ClaimOutcome)
    | DismissInboundEv
    | DeviceRegisteredEv
    | SetAvailabilityEv(online: bool)
    | DeviceErrorEv(deviceMessage: string)
    | ClearErrorEv

  /** When an event can happen: a result only after its request, a timer only while it runs. */
  predicate Enabled(m: ProviderState, e: Event) {
    match e
    case InitiateResponseEv(_) => m.async.initiating > 0
    case PollReadEv => m.refs.customerPoll
    case PollResultEv(_) => m.async.pollsInFlight > 0
    case AcceptEv => m.async.listened > 0
    case DisconnectEv => m.async.listened > 0
    case CancelEv => m.async.listened > 0
    case CallErrorEv(_) => m.async.listened > 0
    case EndReasonExpiredEv => m.refs.endReasonTimer
    case InboundPollReadEv => m.async.inboundPolling
    case InboundPollResultEv(_) => m.async.inboundInFlight > 0
    case ClaimResponseEv(_) => m.async.claiming > 0
    case _ => true
  }

  /** The handler of one event, before the effect re-runs. */
  function Handle(m: ProviderState, e: Event): ProviderState
    requires Enabled(m, e)
  {
    match e
    case InitiateCallEv => InitiateCallStep(m)
    case InitiateResponseEv(o) => InitiateResponseStep(m, o)
    case PollReadEv => PollReadStep(m)
    case PollResultEv(o) => PollResultStep(m, o)
    case AcceptEv => OnAcceptStep(m)
    case DisconnectEv => OnCallEndStep(m)
    case CancelEv => OnCallEndStep(m)
    case CallErrorEv(msg) => OnCallErrorStep(m, msg)
    case IncomingEv => OnIncomingStep(m)
    case EndCallEv => EndCallStep(m)
    case ToggleMicEv => ToggleMicStep(m)
    case TickEv => TickStep(m)
    case EndReasonExpiredEv => EndReasonExpiredStep(m)
    case InboundPollReadEv => InboundPollReadStep(m)
    case InboundPollResultEv(o) => InboundPollResultStep(m, o)
    case AcceptInboundEv => AcceptInboundStep(m)
    case ClaimResponseEv(o) => ClaimResponseStep(m, o)
    case DismissInboundEv => m.(view := m.view.(pendingInbound := None))
    case DeviceRegisteredEv => m.(view := m.view.(deviceReady := true, available := true))
    case SetAvailabilityEv(online) => m.(view := m.view.(available := online))
    case DeviceErrorEv(msg) => m.(view := m.view.(error := Some("Device error: " + msg)))
    case ClearErrorEv => m.(view := m.view.(error := None))
  }

  /** One event and the effect re-run it causes. */
  function Step(m: ProviderState, e: Event): ProviderState
    requires Enabled(m, e)
  {
    Settle(m, Handle(m, e))
  }

  /** Run a sequence of events, as long as each is enabled when it comes. */
  predicate Runs(m: ProviderState, es: seq<Event>)
    decreases |es|
  {
    es == [] || (Enabled(m, es[0]) && Runs(Step(m, es[0]), es[1..]))
  }

  function Run(m: ProviderState, es: seq<Event>): ProviderState
    requires Runs(m, es)
    decreases |es|
  {
    if es == [] then m else Run(Step(m, es[0]), es[1..])
  }

  // ── What the handlers promise ──────────────────────────────────────────────

  /** `resetToIdle` shows an idle call and forgets the poll, its SID, the pending flag and the call handle. */
  lemma ResetToIdleClears(m: ProviderState)
    ensures var r := ResetToIdleStep(m);
      && r.status == IdleStatus
      && !r.refs.customerPoll && r.refs.customerSid == None && !r.refs.outboundPending && !r.refs.call
      && !r.refs.durationTimer
      && TickRate(r) == m.refs.leakedIntervals && r.view == m.view
  {
  }

  /** `initiateCall`: not ready only sets the error; a call in progress is left alone; otherwise dialing out. */
  lemma InitiateCallGuards(m: ProviderState)
    ensures !m.view.deviceReady ==> InitiateCallStep(m) == m.(view := m.view.(error := Some("Device not ready. Please wait.")))
    ensures m.view.deviceReady && m.status.state != Idle ==> InitiateCallStep(m) == m
    ensures m.view.deviceReady && m.status.state == Idle ==>
      var r := InitiateCallStep(m);
      && r.status.state == Dialing && r.status.direction == Some(Outbound)
      && r.status.duration == m.status.duration && r.status.callSid == m.status.callSid
      && r.view.error == None && r.async.initiating == m.async.initiating + 1 && r.refs == m.refs
  {
  }

  /**
   * The initiate reply: one that is not ok shows its error (or the default)
   * and an idle call; an ok one shows the customer leg ringing and starts
   * waiting for the customer, polling its SID at once.
   */
  lemma InitiateResponseOutcome(m: ProviderState, o: InitiateOutcome)
    requires m.async.initiating > 0
    ensures var r := InitiateResponseStep(m, o);
      && (o.InitRejected? ==>
            r.status == IdleStatus
            && r.view.error == Some(if o.error.Some? && o.error.value != "" then o.error.value else "Failed to initiate call"))
      && (o.InitThrew? ==> r.status == IdleStatus && r.view.error == Some("Failed to start call: " + o.message))
      && (o.InitOk? ==>
            && r.status == m.status.(state := Ringing, callSid := Some(o.customerCallSid))
            && r.refs.outboundPending && r.refs.customerPoll && r.refs.customerSid == Some(o.customerCallSid)
            && r.async.pollsInFlight == m.async.pollsInFlight + (if o.customerCallSid != "" then 1 else 0))
  {
  }

  /** With no truthy SID tracked a poll sends nothing. */
  lemma PollWithoutSidDoesNothing(m: ProviderState)
    requires m.refs.customerSid.None? || m.refs.customerSid == Some("")
    ensures PollReadStep(m) == m
  {
  }

  /**
   * The poll's result. "in-progress" stops polling and changes only the
   * state of the shown call, to connected, starting the duration timer; a
   * status that is neither that nor terminal changes nothing but the count of
   * open fetches, and so does a failed fetch.
   */
  lemma PollResultEffect(m: ProviderState, o: PollOutcome)
    requires m.async.pollsInFlight > 0
    ensures o == Reported("in-progress") ==>
      var r := PollResultStep(m, o);
      && r.status == m.status.(state := Connected)
      && !r.refs.customerPoll && r.refs.customerSid == None && !r.refs.outboundPending
      && r.refs.durationTimer && TickRate(r) == TickRate(m) + 1
      && r.view == m.view && !PollResultDisconnects(m, o)
    ensures o != Reported("in-progress") && !EndsCustomerLeg(o) ==>
      PollResultStep(m, o) == m.(async := m.async.(pollsInFlight := m.async.pollsInFlight - 1))
      && !PollResultDisconnects(m, o)
  {
  }

  /**
   * A terminal status shows the label `END_REASON` gives it, hangs up the
   * agent's leg when there is one, and returns to idle.
   */
  lemma PollTerminal(m: ProviderState, status: string)
    requires m.async.pollsInFlight > 0
    requires status in TerminalStatuses
    ensures var r := PollResultStep(m, Reported(status));
      && EndReason(status).Some?
      && r.view.callEndReason == EndReason(status) && r.refs.endReasonTimer
      && r.status == IdleStatus && !r.refs.call && !r.refs.customerPoll && !r.refs.outboundPending
      && (PollResultDisconnects(m, Reported(status)) <==> m.refs.call)
  {
  }

  /** `accept` is ignored while an outbound customer leg is pending, and otherwise connects as inbound. */
  lemma AcceptEffect(m: ProviderState)
    ensures m.refs.outboundPending ==> OnAcceptStep(m) == m
    ensures !m.refs.outboundPending ==>
      var r := OnAcceptStep(m);
      r.status == m.status.(state := Connected, direction := Some(Inbound)) && r.refs.durationTimer
      && TickRate(r) == TickRate(m) + 1
  {
  }

  /** `disconnect`, `cancel` and `error` all stop the poll and return to idle; `error` also shows the message. */
  lemma CallEndEvents(m: ProviderState, message: string)
    ensures OnCallEndStep(m) == ResetToIdleStep(StopCustomerPollStep(m))
    ensures OnCallEndStep(m).status == IdleStatus && !OnCallEndStep(m).refs.outboundPending
    ensures OnCallErrorStep(m, message).status == IdleStatus
    ensures OnCallErrorStep(m, message).view.error == Some("Call error: " + message)
    ensures OnCallErrorStep(m, message).(view := m.view) == OnCallEndStep(m)
  {
  }

  /** `incoming` shows a new ringing inbound call whatever was shown before, outbound calls included. */
  lemma IncomingOverwrites(m: ProviderState)
    ensures var r := OnIncomingStep(m);
      r.status == CallStatus(Ringing, Some(Inbound), 0, None) && r.refs.call
      && r.refs.outboundPending == m.refs.outboundPending && r.refs.customerSid == m.refs.customerSid
  {
  }

  /** `endCall` leaves the shown call as it is: only the call's `disconnect` event resets it. */
  lemma EndCallKeepsStatus(m: ProviderState)
    ensures EndCallStep(m).status == m.status && EndCallStep(m).refs.call == m.refs.call
    ensures !EndCallStep(m).refs.outboundPending && !EndCallStep(m).refs.customerPoll
    ensures m.async.listened > 0 ==> Step(EndCallStep(m), DisconnectEv).status == IdleStatus
  {
  }

  /** `toggleMic` does nothing without a call and otherwise flips the microphone. */
  lemma ToggleMicFlips(m: ProviderState)
    ensures !m.refs.call ==> ToggleMicStep(m) == m
    ensures m.refs.call ==> ToggleMicStep(m).view.micEnabled == !m.view.micEnabled
    ensures ToggleMicStep(ToggleMicStep(m)) == m
  {
  }

  /**
   * The offer of a waiting call: the effect withdraws it when the agent is
   * unavailable or busy, and otherwise polls; a poll result offers the first
   * waiting call, or none.
   */
  lemma PendingOffers(m: ProviderState, o: InboundPollOutcome)
    requires m.async.inboundInFlight > 0
    ensures !m.view.available || m.status.state != Idle ==>
      InboundEffectStep(m).view.pendingInbound == None && !InboundEffectStep(m).async.inboundPolling
    ensures m.view.available && m.status.state == Idle ==>
      InboundEffectStep(m).async.inboundPolling && InboundEffectStep(m).async.inboundInFlight == m.async.inboundInFlight + 1
    ensures o.WaitingCalls? ==>
      InboundPollResultStep(m, o).view.pendingInbound == (if |o.calls| > 0 then Some(o.calls[0]) else None)
    ensures !o.WaitingCalls? ==> InboundPollResultStep(m, o).view.pendingInbound == m.view.pendingInbound
  {
  }

  /**
   * `acceptInbound` withdraws the offer before it sends the claim, and a
   * claim that is not ok shows the reply's error, or the default only when
   * the reply has none (an empty error is shown as it is).
   */
  lemma AcceptInboundClears(m: ProviderState, err: Option<string>)
    ensures AcceptInboundStep(m).view.pendingInbound == None
    ensures m.view.pendingInbound.None? ==> AcceptInboundStep(m) == m
    ensures m.view.pendingInbound.Some? ==> AcceptInboundStep(m).async.claiming == m.async.claiming + 1
    ensures m.async.claiming > 0 ==>
      ClaimResponseStep(m, ClaimRejected(err)).view.error == Some(if err.None? then "Failed to claim call" else err.value)
    ensures m.async.claiming > 0 ==> ClaimResponseStep(m, ClaimOk).view.error == m.view.error
  {
  }

  // ── An invariant of every run ──────────────────────────────────────────────

  /**
   * What holds of every reachable state: the three customer-poll refs move
   * together; a pending outbound leg is never shown connected; an idle call
   * has no direction and no SID; dialing is outbound; a connected call has a
   * ticking duration timer; a call handle is a call whose listeners were
   * attached; the inbound poll only runs for an available, idle agent.
   */
  ghost predicate Inv(m: ProviderState) {
    HandlerInv(m) && (m.async.inboundPolling ==> m.view.available && m.status.state == Idle)
  }

  /** The part of `Inv` that the handlers keep by themselves, before the effect re-runs. */
  ghost predicate HandlerInv(m: ProviderState) {
    && (m.refs.customerPoll <==> m.refs.outboundPending)
    && (m.refs.customerSid.Some? <==> m.refs.outboundPending)
    && (m.refs.outboundPending ==> m.status.state != Connected)
    && (m.status.state == Idle ==> m.status.direction.None? && m.status.callSid.None?)
    && (m.status.state == Dialing ==> m.status.direction == Some(Outbound))
    && (m.status.state == Connected ==> m.refs.durationTimer)
    && (m.refs.call ==> m.async.listened > 0)
  }

  lemma InitialInv()
    ensures Inv(Initial)
  {
  }

  /** Re-running the effect when `available` or the call state changed restores the inbound-poll clause. */
  lemma SettleKeepsInv(before: ProviderState, after: ProviderState)
    requires Inv(before) && HandlerInv(after)
    requires after.async.inboundPolling == before.async.inboundPolling
    ensures Inv(Settle(before, after))
  {
  }

  /** No handler breaks `HandlerInv` or touches the inbound-poll flag. */
  lemma HandleKeepsHandlerInv(m: ProviderState, e: Event)
    requires HandlerInv(m) && Enabled(m, e)
    ensures HandlerInv(Handle(m, e)) && Handle(m, e).async.inboundPolling == m.async.inboundPolling
  {
    match e
    case InitiateResponseEv(o) => ResponsesKeepHandlerInv(m, o);
    case PollResultEv(o) => PollResultKeepsHandlerInv(m, o);
    case AcceptEv => CallEventsKeepHandlerInv(m, "");
    case DisconnectEv => CallEventsKeepHandlerInv(m, "");
    case CancelEv => CallEventsKeepHandlerInv(m, "");
    case CallErrorEv(msg) => CallEventsKeepHandlerInv(m, msg);
    case _ =>
  }

  lemma ResponsesKeepHandlerInv(m: ProviderState, o: InitiateOutcome)
    requires HandlerInv(m) && m.async.initiating > 0
    ensures HandlerInv(InitiateResponseStep(m, o))
  {
  }

  lemma PollResultKeepsHandlerInv(m: ProviderState, o: PollOutcome)
    requires HandlerInv(m) && m.async.pollsInFlight > 0
    ensures HandlerInv(PollResultStep(m, o))
  {
  }

  lemma CallEventsKeepHandlerInv(m: ProviderState, message: string)
    requires HandlerInv(m)
    ensures HandlerInv(OnAcceptStep(m)) && HandlerInv(OnCallEndStep(m)) && HandlerInv(OnCallErrorStep(m, message))
  {
  }

  /** Every event keeps the invariant. */
  lemma {:induction false} StepKeepsInv(m: ProviderState, e: Event)
    requires Inv(m) && Enabled(m, e)
    ensures Inv(Step(m, e))
  {
    HandleKeepsHandlerInv(m, e);
    SettleKeepsInv(m, Handle(m, e));
  }

  /** Hence every run from a reachable state keeps it. */
  lemma {:induction false} RunKeepsInv(m: ProviderState, es: seq<Event>)
    requires Inv(m) && Runs(m, es)
    ensures Inv(Run(m, es))
    decreases |es|
  {
    if es != [] {
      StepKeepsInv(m, es[0]);
      RunKeepsInv(Step(m, es[0]), es[1..]);
    }
  }

  /**
   * While the customer leg is pending, nothing but an "in-progress" poll
   * result shows the call connected: the agent leg's `accept` does not.
   */
  lemma OnlyAnswerConnectsOutbound(m: ProviderState, e: Event)
    requires Inv(m) && Enabled(m, e) && m.refs.outboundPending
    requires Step(m, e).status.state == Connected
    ensures e == PollResultEv(Reported("in-progress"))
  {
  }

  // ── Runs as the code behaves ───────────────────────────────────────────────

  const Ready := Initial.(view := Initial.view.(deviceReady := true))

  /**
   * An outbound call as it normally goes: the server dials the agent's
   * browser too, so `incoming` overwrites the shown call, and once the
   * customer answers it is shown connected as an INBOUND call with no SID.
   */
  lemma OutboundShownAsInbound()
    ensures var es := [InitiateCallEv, InitiateResponseEv(InitOk("CA1")), IncomingEv, AcceptEv,
                       PollResultEv(Reported("in-progress"))];
      Runs(Ready, es) && Run(Ready, es).status == CallStatus(Connected, Some(Inbound), 0, None)
  {
    var m1 := Step(Ready, InitiateCallEv);
    var m2 := Step(m1, InitiateResponseEv(InitOk("CA1")));
    assert m2.async.pollsInFlight == 1;
    var m3 := Step(m2, IncomingEv);
    var m4 := Step(m3, AcceptEv);
    assert m4.status.state == Ringing;
    var m5 := Step(m4, PollResultEv(Reported("in-progress")));
    var es := [InitiateCallEv, InitiateResponseEv(InitOk("CA1")), IncomingEv, AcceptEv,
               PollResultEv(Reported("in-progress"))];
    assert es[1..] == [InitiateResponseEv(InitOk("CA1")), IncomingEv, AcceptEv, PollResultEv(Reported("in-progress"))];
    assert es[1..][1..] == [IncomingEv, AcceptEv, PollResultEv(Reported("in-progress"))];
    assert es[1..][1..][1..] == [AcceptEv, PollResultEv(Reported("in-progress"))];
    assert es[1..][1..][1..][1..] == [PollResultEv(Reported("in-progress"))];
    assert es[1..][1..][1..][1..][1..] == [];
  }

  /**
   * A poll sent before the agent hangs up still lands afterwards: the idle
   * provider is shown connected again, with no call, no direction and a
   * ticking timer.
   */
  lemma StalePollResurrects()
    ensures var m := Step(Step(Step(Step(Step(Ready, InitiateCallEv), InitiateResponseEv(InitOk("CA1"))),
                                         IncomingEv), EndCallEv), DisconnectEv);
      && m.status == IdleStatus && m.async.pollsInFlight == 1
      && var r := Step(m, PollResultEv(Reported("in-progress")));
         r.status == CallStatus(Connected, None, 0, None) && !r.refs.call && TickRate(r) == 1
  {
  }

  /**
   * The customer poll's interval can fire before the first fetch is
   * answered: two fetches are then in flight for one ringing call.
   */
  lemma TwoPollsInFlight()
    ensures var m := Step(Step(Step(Step(Ready, InitiateCallEv), InitiateResponseEv(InitOk("CA1"))),
                              IncomingEv), PollReadEv);
      m.async.pollsInFlight == 2 && m.async.listened == 1 && TickRate(m) == 0 && m.status.state == Ringing
  {
    var m2 := Step(Step(Ready, InitiateCallEv), InitiateResponseEv(InitOk("CA1")));
    assert m2.async.pollsInFlight == 1 && m2.refs.customerPoll && m2.refs.customerSid == Some("CA1");
  }

  /**
   * Two fetches both answered "in-progress" start two duration intervals and
   * the ref keeps only the second; after the call ends the first goes on
   * ticking, so the idle call's duration grows.
   */
  lemma LeakedIntervalTicksWhileIdle(m: ProviderState)
    requires m.async.pollsInFlight >= 2 && m.async.listened > 0 && TickRate(m) == 0
    ensures var c := Step(Step(m, PollResultEv(Reported("in-progress"))), PollResultEv(Reported("in-progress")));
      && c.status.state == Connected && TickRate(c) == 2
      && var idle := Step(Step(c, DisconnectEv), TickEv);
         idle.status == CallStatus(Idle, None, 1, None)
  {
    var c1 := Step(m, PollResultEv(Reported("in-progress")));
    assert c1.status.state == Connected && TickRate(c1) == 1 && c1.refs.durationTimer;
    var c := Step(c1, PollResultEv(Reported("in-progress")));
    assert c.refs.leakedIntervals == 1 && c.refs.durationTimer;
    var d := Step(c, DisconnectEv);
    assert d.status == IdleStatus && TickRate(d) == 1;
  }

  // ── The provider's fields, updated in place ────────────────────────────────

  class Provider {
    var callStatus: CallStatus
    var view: View
    var refs: Refs
    var async: Async

    function State(): ProviderState
      reads this
    {
      ProviderState(callStatus, view, refs, async)
    }

    ghost predicate Valid()
      reads this
    {
      Inv(State())
    }

    constructor ()
      ensures State() == Initial && Valid()
    {
      callStatus := IdleStatus;
      view := View(None, false, false, true, None, None);
      refs := Refs(false, false, 0, false, None, false, false);
      async := Async(0, 0, 0, false, 0, 0);
    }

    method ResetToIdle()
      modifies this
      ensures State() == ResetToIdleStep(old(State()))
    {
      refs := refs.(durationTimer := false, customerPoll := false, customerSid := None,
                    outboundPending := false, call := false);
      callStatus := IdleStatus;
    }

    method ShowEndReason(reason: string)
      modifies this
      ensures State() == ShowEndReasonStep(old(State()), reason)
    {
      view := view.(callEndReason := Some(reason));
      refs := refs.(endReasonTimer := true);
    }

    method StopCustomerPoll()
      modifies this
      ensures State() == StopCustomerPollStep(old(State()))
    {
      refs := refs.(customerPoll := false, customerSid := None, outboundPending := false);
    }

    method StartDurationTimer()
      modifies this
      ensures State() == StartDurationTimerStep(old(State()))
    {
      if refs.durationTimer {
        refs := refs.(leakedIntervals := refs.leakedIntervals + 1);
      }
      refs := refs.(durationTimer := true);
    }

    /** The customer poll's interval fires (also run once when polling starts). */
    method PollRead()
      modifies this
      ensures State() == PollReadStep(old(State()))
    {
      if refs.customerSid.Some? && refs.customerSid.value != "" {
        async := async.(pollsInFlight := async.pollsInFlight + 1);
      }
    }

    method StartCustomerPoll(callSid: string)
      modifies this
      ensures State() == StartCustomerPollStep(old(State()), callSid)
    {
      refs := refs.(customerSid := Some(callSid), outboundPending := true);
      PollRead();
      refs := refs.(customerPoll := true);
    }

    /** Re-run the inbound-poll effect if `available` or the call state changed since `before`. */
    method RerunEffect(ghost before: ProviderState, wasAvailable: bool, wasState: CallState)
      requires wasAvailable == before.view.available && wasState == before.status.state
      modifies this
      ensures State() == Settle(before, old(State()))
    {
      if view.available != wasAvailable || callStatus.state != wasState {
        if !view.available || callStatus.state != Idle {
          view := view.(pendingInbound := None);
          async := async.(inboundPolling := false);
        } else {
          async := async.(inboundPolling := true, inboundInFlight := async.inboundInFlight + 1);
        }
      }
    }

    /** `initiateCall`, up to its `await`. */
    method InitiateCall()
      requires Valid()
      modifies this
      ensures Valid() && State() == Step(old(State()), InitiateCallEv)
    {
      ghost var before := State();
      var wasAvailable, wasState := view.available, callStatus.state;
      if !view.deviceReady {
        view := view.(error := Some("Device not ready. Please wait."));
      } else if callStatus.state == Idle {
        view := view.(error := None);
        callStatus := callStatus.(state := Dialing, direction := Some(Outbound));
        async := async.(initiating := async.initiating + 1);
      }
      RerunEffect(before, wasAvailable, wasState);
      StepKeepsInv(before, InitiateCallEv);
    }

    /** `initiateCall`, after its `await`. */
    method InitiateResponse(o: InitiateOutcome)
      requires Valid() && async.initiating > 0
      modifies this
      ensures Valid() && State() == Step(old(State()), InitiateResponseEv(o))
    {
      ghost var before := State();
      var wasAvailable, wasState := view.available, callStatus.state;
      async := async.(initiating := async.initiating - 1);
      match o {
        case InitOk(sid) =>
          callStatus := callStatus.(state := Ringing, callSid := Some(sid));
          StartCustomerPoll(sid);
        case InitRejected(err) =>
          view := view.(error := Some(if err.Some? && err.value != "" then err.value else "Failed to initiate call"));
          callStatus := IdleStatus;
        case InitThrew(msg) =>
          view := view.(error := Some("Failed to start call: " + msg));
          callStatus := IdleStatus;
      }
      RerunEffect(before, wasAvailable, wasState);
      StepKeepsInv(before, InitiateResponseEv(o));
    }

    /** `poll`, after its `await`; returns whether it hangs up the agent's leg. */
    method PollResult(o: PollOutcome) returns (disconnect: bool)
      requires Valid() && async.pollsInFlight > 0
      modifies this
      ensures Valid() && State() == Step(old(State()), PollResultEv(o))
      ensures disconnect == PollResultDisconnects(old(State()), o)
    {
      ghost var before := State();
      var wasAvailable, wasState := view.available, callStatus.state;
      async := async.(pollsInFlight := async.pollsInFlight - 1);
      disconnect := false;
      if o == Reported("in-progress") {
        StopCustomerPoll();
        callStatus := callStatus.(state := Connected);
        StartDurationTimer();
      } else if o.Reported? && o.callStatus in TerminalStatuses && o.callStatus != "in-progress" {
        StopCustomerPoll();
        ShowEndReason(EndReason(o.callStatus).GetOr("Call ended"));
        disconnect := refs.call;
        ResetToIdle();
      }
      RerunEffect(before, wasAvailable, wasState);
      StepKeepsInv(before, PollResultEv(o));
    }

    /** A call's `accept` event. */
    method OnAccept()
      requires Valid() && async.listened > 0
      modifies this
      ensures Valid() && State() == Step(old(State()), AcceptEv)
    {
      ghost var before := State();
      var wasAvailable, wasState := view.available, callStatus.state;
      if !refs.outboundPending {
        callStatus := callStatus.(state := Connected, direction := Some(Inbound));
        StartDurationTimer();
      }
      RerunEffect(before, wasAvailable, wasState);
      StepKeepsInv(before, AcceptEv);
    }

    /** A call's `disconnect` event (its `cancel` event does the same). */
    method OnDisconnect()
      requires Valid() && async.listened > 0
      modifies this
      ensures Valid() && State() == Step(old(State()), DisconnectEv)
      ensures State() == Step(old(State()), CancelEv)
    {
      ghost var before := State();
      var wasAvailable, wasState := view.available, callStatus.state;
      StopCustomerPoll();
      ResetToIdle();
      RerunEffect(before, wasAvailable, wasState);
      StepKeepsInv(before, DisconnectEv);
    }

    /** A call's `error` event. */
    method OnCallError(message: string)
      requires Valid() && async.listened > 0
      modifies this
      ensures Valid() && State() == Step(old(State()), CallErrorEv(message))
    {
      ghost var before := State();
      var wasAvailable, wasState := view.available, callStatus.state;
      StopCustomerPoll();
      view := view.(error := Some("Call error: " + message));
      ResetToIdle();
      RerunEffect(before, wasAvailable, wasState);
      StepKeepsInv(before, CallErrorEv(message));
    }

    /** The device's `incoming` event. */
    method OnIncoming()
      requires Valid()
      modifies this
      ensures Valid() && State() == Step(old(State()), IncomingEv)
    {
      ghost var before := State();
      var wasAvailable, wasState := view.available, callStatus.state;
      refs := refs.(call := true);
      async := async.(listened := async.listened + 1);
      callStatus := CallStatus(Ringing, Some(Inbound), 0, None);
      RerunEffect(before, wasAvailable, wasState);
      StepKeepsInv(before, IncomingEv);
    }

    /** `endCall`; returns whether it asks the call to disconnect. */
    method EndCall() returns (disconnect: bool)
      requires Valid()
      modifies this
      ensures Valid() && State() == Step(old(State()), EndCallEv)
      ensures disconnect == old(refs.call)
    {
      ghost var before := State();
      StopCustomerPoll();
      disconnect := refs.call;
      StepKeepsInv(before, EndCallEv);
    }

    /** `toggleMic`; returns the argument passed to `mute`, if any. */
    method ToggleMic() returns (mute: Option<bool>)
      requires Valid()
      modifies this
      ensures Valid() && State() == Step(old(State()), ToggleMicEv)
      ensures old(refs.call) ==> mute == Some(old(view.micEnabled))
      ensures !old(refs.call) ==> mute == None
    {
      ghost var before := State();
      if !refs.call {
        StepKeepsInv(before, ToggleMicEv);
        return None;
      }
      var next := !view.micEnabled;
      mute := Some(!next);
      view := view.(micEnabled := next);
      StepKeepsInv(before, ToggleMicEv);
    }

    /** One second passes. */
    method Tick()
      requires Valid()
      modifies this
      ensures Valid() && State() == Step(old(State()), TickEv)
    {
      ghost var before := State();
      callStatus := callStatus.(duration := callStatus.duration + refs.leakedIntervals + if refs.durationTimer then 1 else 0);
      StepKeepsInv(before, TickEv);
    }

    method EndReasonExpired()
      requires Valid() && refs.endReasonTimer
      modifies this
      ensures Valid() && State() == Step(old(State()), EndReasonExpiredEv)
    {
      ghost var before := State();
      view := view.(callEndReason := None);
      refs := refs.(endReasonTimer := false);
      StepKeepsInv(before, EndReasonExpiredEv);
    }

    method InboundPollRead()
      requires Valid() && async.inboundPolling
      modifies this
      ensures Valid() && State() == Step(old(State()), InboundPollReadEv)
    {
      ghost var before := State();
      async := async.(inboundInFlight := async.inboundInFlight + 1);
      StepKeepsInv(before, InboundPollReadEv);
    }

    method InboundPollResult(o: InboundPollOutcome)
      requires Valid() && async.inboundInFlight > 0
      modifies this
      ensures Valid() && State() == Step(old(State()), InboundPollResultEv(o))
    {
      ghost var before := State();
      async := async.(inboundInFlight := async.inboundInFlight - 1);
      if o.WaitingCalls? {
        view := view.(pendingInbound := if |o.calls| > 0 then Some(o.calls[0]) else None);
      }
      StepKeepsInv(before, InboundPollResultEv(o));
    }

    /** `acceptInbound`, up to its `await`; returns the SID it claims, if any. */
    method AcceptInbound() returns (claim: Option<string>)
      requires Valid()
      modifies this
      ensures Valid() && State() == Step(old(State()), AcceptInboundEv)
      ensures claim == if old(view.pendingInbound).Some? then Some(old(view.pendingInbound).value.callSid) else None
    {
      ghost var before := State();
      if view.pendingInbound.None? {
        StepKeepsInv(before, AcceptInboundEv);
        return None;
      }
      var call := view.pendingInbound.value;
      view := view.(pendingInbound := None);
      async := async.(claiming := async.claiming + 1);
      claim := Some(call.callSid);
      StepKeepsInv(before, AcceptInboundEv);
    }

    /** `acceptInbound`, after its `await`. */
    method ClaimResponse(o: ClaimOutcome)
      requires Valid() && async.claiming > 0
      modifies this
      ensures Valid() && State() == Step(old(State()), ClaimResponseEv(o))
    {
      ghost var before := State();
      async := async.(claiming := async.claiming - 1);
      match o {
        case ClaimOk =>
        case ClaimRejected(err) => view := view.(error := Some(err.GetOr("Failed to claim call")));
        case ClaimThrew(msg) => view := view.(error := Some("Failed to accept: " + msg));
      }
      StepKeepsInv(before, ClaimResponseEv(o));
    }

    method DismissInbound()
      requires Valid()
      modifies this
      ensures Valid() && State() == Step(old(State()), DismissInboundEv)
    {
      ghost var before := State();
      view := view.(pendingInbound := None);
      StepKeepsInv(before, DismissInboundEv);
    }

    /** The device's `registered` event: ready, and online (the availability request is not modelled). */
    method DeviceRegistered()
      requires Valid()
      modifies this
      ensures Valid() && State() == Step(old(State()), DeviceRegisteredEv)
    {
      ghost var before := State();
      var wasAvailable, wasState := view.available, callStatus.state;
      view := view.(deviceReady := true, available := true);
      RerunEffect(before, wasAvailable, wasState);
      StepKeepsInv(before, DeviceRegisteredEv);
    }

    /** `setAvailability(online)`, once its request has settled. */
    method SetAvailability(online: bool)
      requires Valid()
      modifies this
      ensures Valid() && State() == Step(old(State()), SetAvailabilityEv(online))
    {
      ghost var before := State();
      var wasAvailable, wasState := view.available, callStatus.state;
      view := view.(available := online);
      RerunEffect(before, wasAvailable, wasState);
      StepKeepsInv(before, SetAvailabilityEv(online));
    }

    /** The device's `error` event. */
    method DeviceError(message: string)
      requires Valid()
      modifies this
      ensures Valid() && State() == Step(old(State()), DeviceErrorEv(message))
    {
      ghost var before := State();
      view := view.(error := Some("Device error: " + message));
      StepKeepsInv(before, DeviceErrorEv(message));
    }

    method ClearError()
      requires Valid()
      modifies this
      ensures Valid() && State() == Step(old(State()), ClearErrorEv)
    {
      ghost var before := State();
      view := view.(error := None);
      StepKeepsInv(before, ClearErrorEv);
    }
  }
}
