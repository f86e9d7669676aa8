/**
 * The handler that starts an outbound call (src/app/api/twilio/initiate-call/route.ts):
 * after its guards it names a fresh conference room and asks the provider for
 * two calls into it, first the customer's phone, then the agent's browser.
 * Only the agent's arrival starts the conference; either side leaving ends it.
 *
 * The configuration values are parameters (`None` when unset), `now` is
 * `Date.now()`, and `create` is the outcome of `calls.create` for a request.
 */
module InitiateCallRoute {
  import opened Wrappers
  import opened JsStrings
  import opened Telephony

  datatype Reply =
    | Unauthorized                                            // 401
    | MissingTo                                               // 400 "Missing 'to' phone number"
    | MissingConfig                                           // 500 "Missing Twilio configuration"
    | Started(room: string, customerSid: string, agentSid: string)   // 200
    | CallFailed(error: string)                                 // 500

  function Status(r: Reply): nat {
    match r
    case Unauthorized => 401
    case MissingTo => 400
    case MissingConfig => 500
    case Started(_, _, _) => 200
    case CallFailed(_) => 500
  }

  const DefaultError: string := "Failed to initiate call"

  /** `error.message || "Failed to initiate call"`. */
  function ErrorText(message: Option<string>): string {
    if Truthy(message) then message.value else DefaultError
  }

  /** `room-${Date.now()}`. */
  function RoomName(now: int): string {
    "room-" + IntToString(now)
  }

  function CustomerLeg(to: string, phone: string, room: string): CallRequest {
    CallRequest(to, Some(phone), Twiml(Conference(false, true, None, room)))
  }

  function AgentLeg(session: Session, phone: string, room: string): CallRequest {
    CallRequest(ClientAddress(AgentIdentity(session)), Some(phone), Twiml(Conference(true, true, None, room)))
  }

  /**
   * The customer's leg goes to `to`, with the configured number, into `room`,
   * not starting the conference but ending it on leaving.
   */
  lemma CustomerLegShape(to: string, phone: string, room: string)
    ensures var leg := CustomerLeg(to, phone, room);
      && leg.to == to && leg.from == Some(phone)
      && ParseTwiml(leg.twiml) == Some(Conference(false, true, None, room))
  {
    ParseTwimlRoundTrip(Conference(false, true, None, room));
  }

  /** The agent's leg goes to the agent's browser client, into `room`, and starts the conference. */
  lemma AgentLegShape(session: Session, phone: string, room: string)
    ensures var leg := AgentLeg(session, phone, room);
      && leg.to == "client:" + AgentIdentity(session) && leg.from == Some(phone)
      && ParseTwiml(leg.twiml) == Some(Conference(true, true, None, room))
  {
    ParseTwimlRoundTrip(Conference(true, true, None, room));
  }

  /** One request: the reply and the call requests issued, in order. */
  function InitiateCall(session: Option<Session>, to: Option<string>,
                        accountSid: Option<string>, authToken: Option<string>, phone: Option<string>,
                        now: int, create: CallRequest -> DialResult): (Reply, seq<CallRequest>)
  {
    if session.None? then (Unauthorized, [])
    else if !Truthy(to) then (MissingTo, [])
    else if !Truthy(accountSid) || !Truthy(authToken) || !Truthy(phone) then (MissingConfig, [])
    else
      var room := RoomName(now);
      var customer := CustomerLeg(to.value, phone.value, room);
      match create(customer)
      case Failed(m) => (CallFailed(ErrorText(m)), [customer])
      case Created(customerSid) =>
        var agent := AgentLeg(session.value, phone.value, room);
        match create(agent)
        case Failed(m) => (CallFailed(ErrorText(m)), [customer, agent])
        case Created(agentSid) => (Started(room, customerSid, agentSid), [customer, agent])
  }

  /** Every guard that fails answers before any call is requested. */
  lemma GuardsRequestNothing(session: Option<Session>, to: Option<string>,
                             accountSid: Option<string>, authToken: Option<string>, phone: Option<string>,
                             now: int, create: CallRequest -> DialResult)
    ensures var (reply, legs) := InitiateCall(session, to, accountSid, authToken, phone, now, create);
      && (session.None? ==> reply == Unauthorized && legs == [])
      && (session.Some? && !Truthy(to) ==> reply == MissingTo && legs == [] && Status(reply) == 400)
      && (session.Some? && Truthy(to) && (!Truthy(accountSid) || !Truthy(authToken) || !Truthy(phone)) ==>
            reply == MissingConfig && legs == [] && Status(reply) == 500)
  {
  }

  /** Past the guards, the customer's leg into the room `room-<now>` is requested first. */
  lemma CustomerLegFirst(s: Session, to: string, accountSid: string, authToken: string, phone: string,
                         now: int, create: CallRequest -> DialResult)
    requires to != "" && accountSid != "" && authToken != "" && phone != ""
    ensures var legs := InitiateCall(Some(s), Some(to), Some(accountSid), Some(authToken), Some(phone), now, create).1;
      && 1 <= |legs| <= 2
      && legs[0] == CustomerLeg(to, phone, "room-" + IntToString(now))
      && (|legs| == 2 <==> create(legs[0]).Created?)
  {
  }

  /** The agent's leg, requested only once the customer's exists, goes into the SAME room. */
  lemma AgentLegSecond(s: Session, to: string, accountSid: string, authToken: string, phone: string,
                       now: int, create: CallRequest -> DialResult)
    requires to != "" && accountSid != "" && authToken != "" && phone != ""
    requires create(CustomerLeg(to, phone, RoomName(now))).Created?
    ensures var legs := InitiateCall(Some(s), Some(to), Some(accountSid), Some(authToken), Some(phone), now, create).1;
      && |legs| == 2
      && legs[1] == AgentLeg(s, phone, "room-" + IntToString(now))
  {
  }

  /**
   * The reply is `Started` exactly when both legs were created, and then it
   * carries the room and both call SIDs; a failure carries the error's message
   * or the default text, with status 500.
   */
  lemma Outcome(s: Session, to: string, accountSid: string, authToken: string, phone: string,
                now: int, create: CallRequest -> DialResult)
    requires to != "" && accountSid != "" && authToken != "" && phone != ""
    ensures var (reply, legs) := InitiateCall(Some(s), Some(to), Some(accountSid), Some(authToken), Some(phone), now, create);
      && (reply.Started? <==> |legs| == 2 && create(legs[0]).Created? && create(legs[1]).Created?)
      && (reply.Started? ==>
            reply == Started("room-" + IntToString(now), create(legs[0]).sid, create(legs[1]).sid))
      && (reply.CallFailed? ==>
            Status(reply) == 500 && create(legs[|legs| - 1]).Failed?
            && reply.error == ErrorText(create(legs[|legs| - 1]).message))
  {
  }

  /** Requests at different milliseconds use different rooms. */
  lemma RoomNamesDistinct(t1: int, t2: int)
    requires t1 != t2
    ensures RoomName(t1) != RoomName(t2)
  {
    if RoomName(t1) == RoomName(t2) {
      assert IntToString(t1) == RoomName(t1)[5..] && IntToString(t2) == RoomName(t2)[5..];
      IntToStringInjective(t1, t2);
    }
  }

  /** `POST`: the requests it issues are appended to the log. */
  method Post(log: CallLog, session: Option<Session>, to: Option<string>,
              accountSid: Option<string>, authToken: Option<string>, phone: Option<string>,
              now: int, create: CallRequest -> DialResult)
    returns (reply: Reply)
    modifies log
    ensures var (r, legs) := InitiateCall(session, to, accountSid, authToken, phone, now, create);
      reply == r && log.requests == old(log.requests) + legs
  {
    if session.None? {
      return Unauthorized;
    }
    if !Truthy(to) {
      return MissingTo;
    }
    if !Truthy(accountSid) || !Truthy(authToken) || !Truthy(phone) {
      return MissingConfig;
    }
    var room := RoomName(now);
    var customer := CustomerLeg(to.value, phone.value, room);
    log.Record(customer);
    var customerCall := create(customer);
    if customerCall.Failed? {
      return CallFailed(ErrorText(customerCall.message));
    }
    var agent := AgentLeg(session.value, phone.value, room);
    log.Record(agent);
    var agentCall := create(agent);
    if agentCall.Failed? {
      return CallFailed(ErrorText(agentCall.message));
    }
    reply := Started(room, customerCall.sid, agentCall.sid);
  }
}
