/**
 * The handler an agent's browser posts to when it answers a waiting inbound
 * call (src/app/api/twilio/claim-inbound/route.ts): it claims the call in the
 * queue and dials the agent's voice client into the call's hold conference;
 * if that dial fails, it forgets the call altogether.
 *
 * `ClaimInbound` is what one request does to the queue's value and which call
 * request it issues; `Post` runs it on the shared `CallQueue`, recording the
 * request in the `CallLog`. The outcome of `calls.create` is the function
 * `create` of the request.
 */
module ClaimInboundRoute {
  import opened Wrappers
  import opened Telephony
  import opened InboundCallQueue

  /** The handler's responses. */
  datatype Reply =
    | Unauthorized                    // 401 { error: "Unauthorized" }
    | MissingCallSid                  // 400 { error: "Missing callSid" }
    | AlreadyAnswered                 // 409 { error: "Call already answered by another agent." }
    | Joined                          // 200 { success: true }
    | DialFailed(message: Option<string>)   // 500 { error: error.message }

  function Status(r: Reply): nat {
    match r
    case Unauthorized => 401
    case MissingCallSid => 400
    case AlreadyAnswered => 409
    case Joined => 200
    case DialFailed(_) => 500
  }

  const AlreadyAnsweredText: string := "Call already answered by another agent."

  /** The request that dials the agent's browser into the call's conference. */
  function AgentLeg(session: Session, phone: Option<string>, call: WaitingCall): CallRequest {
    CallRequest(
      ClientAddress(AgentIdentity(session)),
      phone,
      Twiml(Conference(true, true, None, call.conferenceName)))
  }

  /**
   * The agent's leg goes to the agent's client address, with the configured
   * caller id, into the call's hold conference, with `startConferenceOnEnter`
   * and `endConferenceOnExit` set.
   */
  lemma AgentLegShape(session: Session, phone: Option<string>, call: WaitingCall)
    ensures var leg := AgentLeg(session, phone, call);
      && leg.to == "client:" + AgentIdentity(session) && leg.from == phone
      && ParseTwiml(leg.twiml) == Some(Conference(true, true, None, call.conferenceName))
  {
    ParseTwimlRoundTrip(Conference(true, true, None, call.conferenceName));
  }

  /**
   * One request: `session` is the signed-in session (if any), `callSid` the
   * body's `callSid` property, `phone` the configured caller id. Returns the
   * reply, the new queue value and the call requests issued.
   */
  function ClaimInbound(st: QueueState, session: Option<Session>, callSid: JsonValue, phone: Option<string>,
                        create: CallRequest -> DialResult): (Reply, QueueState, seq<CallRequest>)
  {
    if session.None? then (Unauthorized, st, [])
    else if !JsonTruthy(callSid) then (MissingCallSid, st, [])
    else if !callSid.JString? then (AlreadyAnswered, st, [])   // a non-string SID is never a key
    else
      var (call, claimedSt) := ClaimStep(st, callSid.s);
      if call.None? then (AlreadyAnswered, st, [])
      else
        var req := AgentLeg(session.value, phone, call.value);
        match create(req)
        case Created(_) => (Joined, claimedSt, [req])
        case Failed(message) => (DialFailed(message), DequeueStep(claimedSt, callSid.s), [req])
  }

  /** Without a session: 401, no change, no call. */
  lemma NoSessionNoChange(st: QueueState, callSid: JsonValue, phone: Option<string>, create: CallRequest -> DialResult)
    ensures ClaimInbound(st, None, callSid, phone, create) == (Unauthorized, st, [])
    ensures Status(ClaimInbound(st, None, callSid, phone, create).0) == 401
  {
  }

  /** A missing or empty `callSid`: 400, no change, no call. */
  lemma MissingCallSidNoChange(st: QueueState, s: Session, callSid: JsonValue, phone: Option<string>,
                               create: CallRequest -> DialResult)
    requires !JsonTruthy(callSid)
    ensures ClaimInbound(st, Some(s), callSid, phone, create) == (MissingCallSid, st, [])
  {
  }

  /** A call that is already claimed, or not queued, gives 409 and changes nothing. */
  lemma ConflictNoChange(st: QueueState, s: Session, sid: string, phone: Option<string>, create: CallRequest -> DialResult)
    requires sid != ""
    requires sid in st.claimed || sid !in st.queue
    ensures ClaimInbound(st, Some(s), JString(sid), phone, create) == (AlreadyAnswered, st, [])
    ensures Status(AlreadyAnswered) == 409
  {
  }

  /** A claim that succeeds issues exactly one request: the agent's leg into the call's own hold conference. */
  lemma ClaimDialsAgent(st: QueueState, s: Session, sid: string, phone: Option<string>, create: CallRequest -> DialResult)
    requires WellFormed(st)
    requires sid != "" && sid in st.queue && sid !in st.claimed
    ensures var (_, _, legs) := ClaimInbound(st, Some(s), JString(sid), phone, create);
      |legs| == 1
      && legs[0] == AgentLeg(s, phone, st.queue[sid])
      && st.queue[sid].conferenceName == "inbound-" + sid
  {
  }

  /**
   * After a dial that succeeds the call stays queued and claimed, so no later
   * `getWaiting` lists it; after one that fails the call is gone from both the
   * queue and the claimed set, and no other call is touched.
   */
  lemma DialOutcome(st: QueueState, s: Session, sid: string, phone: Option<string>, create: CallRequest -> DialResult,
                    now: int)
    requires WellFormed(st)
    requires sid != "" && sid in st.queue && sid !in st.claimed
    ensures var (reply, st', _) := ClaimInbound(st, Some(s), JString(sid), phone, create);
      && (reply == Joined || reply.DialFailed?)
      && (reply == Joined ==>
            sid in st'.queue && sid in st'.claimed
            && forall w :: w in Waiting(PurgeStep(st', now - StaleAfterMs)) ==> w.callSid != sid)
      && (reply.DialFailed? ==>
            Status(reply) == 500 && sid !in st'.queue && sid !in st'.claimed
            && forall k :: k != sid ==> (k in st'.queue <==> k in st.queue) && (k in st'.claimed <==> k in st.claimed))
  {
    var (reply, st', _) := ClaimInbound(st, Some(s), JString(sid), phone, create);
    if reply == Joined {
      GetWaitingSound(st', now);
    }
  }

  /**
   * First agent wins: once a request has been answered `Joined`, a second
   * request for the same call, from any agent, gets 409.
   */
  lemma SecondClaimConflicts(st: QueueState, s1: Session, s2: Session, sid: string, phone: Option<string>,
                             create1: CallRequest -> DialResult, create2: CallRequest -> DialResult)
    requires WellFormed(st) && sid != ""
    requires ClaimInbound(st, Some(s1), JString(sid), phone, create1).0 == Joined
    ensures var st' := ClaimInbound(st, Some(s1), JString(sid), phone, create1).1;
      ClaimInbound(st', Some(s2), JString(sid), phone, create2) == (AlreadyAnswered, st', [])
  {
  }

  /** `POST`, run on the shared queue. */
  method Post(q: CallQueue, log: CallLog, session: Option<Session>, callSid: JsonValue, phone: Option<string>,
              create: CallRequest -> DialResult)
    returns (reply: Reply)
    requires q.Valid()
    modifies q, log
    ensures q.Valid()
    ensures var (r, st', legs) := ClaimInbound(old(q.State()), session, callSid, phone, create);
      reply == r && q.State() == st' && log.requests == old(log.requests) + legs
  {
    if session.None? {
      return Unauthorized;
    }
    if !JsonTruthy(callSid) {
      return MissingCallSid;
    }
    if !callSid.JString? {
      return AlreadyAnswered;
    }
    var call := q.ClaimCall(callSid.s);
    if call.None? {
      return AlreadyAnswered;
    }
    var req := AgentLeg(session.value, phone, call.value);
    log.Record(req);
    match create(req)
    case Created(_) =>
      reply := Joined;
    case Failed(message) =>
      q.Dequeue(callSid.s);
      reply := DialFailed(message);
  }
}
