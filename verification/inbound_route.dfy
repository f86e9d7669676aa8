/**
 * The webhook the telephony provider calls when someone dials the app's
 * number (src/app/api/twilio/inbound/route.ts): it checks the request's
 * signature, queues the call, and answers with TwiML that holds the caller in
 * a conference named after the call until an agent joins.
 *
 * The provider's signature check is the function `validate` of the auth
 * token, the signature header, the URL and the form parameters; the
 * environment values are parameters (`None` when unset), and `now` stands for
 * the clock.
 */
module InboundRoute {
  import opened Wrappers
  import opened JsStrings
  import opened Telephony
  import opened FormData
  import opened InboundCallQueue

  datatype Reply =
    | Forbidden               // 403 "Forbidden"
    | Hold(twiml: string)     // 200, Content-Type text/xml

  function Status(r: Reply): nat {
    if r.Forbidden? then 403 else 200
  }

  type Validator = (Option<string>, string, string, map<string, string>) -> bool

  /** The URL the signature is checked against: `${appUrl}/api/twilio/inbound`. */
  function WebhookUrl(appUrl: Option<string>): string {
    TemplateText(appUrl) + "/api/twilio/inbound"
  }

  /** Where the provider reports the end of the hold conference. */
  function StatusCallbackUrl(appUrl: Option<string>): string {
    TemplateText(appUrl) + "/api/twilio/inbound-status"
  }

  /** `params["CallSid"]`; a request without one is queued under the text "undefined". */
  function CallSidOf(params: map<string, string>): string {
    TemplateText(if "CallSid" in params then Some(params["CallSid"]) else None)
  }

  /** `params["From"] ?? "Unknown"`. */
  function CallerOf(params: map<string, string>): string {
    if "From" in params then params["From"] else "Unknown"
  }

  /** One webhook request: the reply and the new queue value. */
  function Inbound(st: QueueState, authToken: Option<string>, appUrl: Option<string>, signature: Option<string>,
                   fields: seq<Field>, validate: Validator, now: int): (Reply, QueueState)
  {
    var params := ParamsOf(fields);
    if !validate(authToken, signature.GetOr(""), WebhookUrl(appUrl), params) then (Forbidden, st)
    else
      var callSid := CallSidOf(params);
      var conferenceName := ConferenceNameFor(callSid);
      (Hold(Twiml(Conference(false, true, Some(StatusCallbackUrl(appUrl)), conferenceName))),
       EnqueueStep(st, callSid, CallerOf(params), now))
  }

  /**
   * The signature gate: the call is queued exactly when the provider's check
   * accepts the auth token, the signature header (empty when absent), the
   * webhook URL and ALL form parameters; otherwise 403 and nothing changes.
   */
  lemma SignatureGate(st: QueueState, authToken: Option<string>, appUrl: Option<string>, signature: Option<string>,
                      fields: seq<Field>, validate: Validator, now: int)
    ensures var (reply, st') := Inbound(st, authToken, appUrl, signature, fields, validate, now);
      && (reply.Hold? <==> validate(authToken, signature.GetOr(""), TemplateText(appUrl) + "/api/twilio/inbound", ParamsOf(fields)))
      && (reply == Forbidden ==> st' == st && Status(reply) == 403)
  {
  }

  /**
   * An accepted request queues its call exactly once, under its `CallSid`, with
   * its `From` number (or "Unknown"), and leaves the claimed set alone.
   */
  lemma AcceptedCallQueued(st: QueueState, authToken: Option<string>, appUrl: Option<string>, signature: Option<string>,
                           fields: seq<Field>, validate: Validator, now: int, i: nat)
    requires WellFormed(st)
    requires i < |fields| && fields[i].0 == "CallSid"
    requires forall j :: i < j < |fields| ==> fields[j].0 != "CallSid"
    requires validate(authToken, signature.GetOr(""), WebhookUrl(appUrl), ParamsOf(fields))
    ensures var (_, st') := Inbound(st, authToken, appUrl, signature, fields, validate, now);
      var sid := fields[i].1;
      && st' == EnqueueStep(st, sid, CallerOf(ParamsOf(fields)), now)
      && st'.queue[sid] == WaitingCall(sid, CallerOf(ParamsOf(fields)), "inbound-" + sid, now)
      && st'.claimed == st.claimed
      && WellFormed(st')
  {
    ParamsOfLastWins(fields, i);
  }

  /**
   * The hold TwiML: the caller waits in the conference the queue entry names,
   * the conference does not start on the caller's entry, ends when the caller
   * leaves, and reports its end to the inbound-status webhook.
   */
  lemma HoldTwimlDescribesQueuedCall(st: QueueState, authToken: Option<string>, appUrl: Option<string>,
                                     signature: Option<string>, fields: seq<Field>, validate: Validator, now: int)
    requires WellFormed(st)
    requires '"' !in TemplateText(appUrl)
    requires validate(authToken, signature.GetOr(""), WebhookUrl(appUrl), ParamsOf(fields))
    ensures var (reply, st') := Inbound(st, authToken, appUrl, signature, fields, validate, now);
      var sid := CallSidOf(ParamsOf(fields));
      reply.Hold?
      && ParseTwiml(reply.twiml)
         == Some(Conference(false, true, Some(TemplateText(appUrl) + "/api/twilio/inbound-status"), st'.queue[sid].conferenceName))
  {
    var sid := CallSidOf(ParamsOf(fields));
    assert '"' !in StatusCallbackUrl(appUrl);
    ParseTwimlRoundTrip(Conference(false, true, Some(StatusCallbackUrl(appUrl)), ConferenceNameFor(sid)));
  }

  /** `POST`, run on the shared queue. */
  method Post(q: CallQueue, authToken: Option<string>, appUrl: Option<string>, signature: Option<string>,
              fields: seq<Field>, validate: Validator, now: int)
    returns (reply: Reply)
    requires q.Valid()
    modifies q
    ensures q.Valid()
    ensures (reply, q.State()) == Inbound(old(q.State()), authToken, appUrl, signature, fields, validate, now)
  {
    var url := TemplateText(appUrl) + "/api/twilio/inbound";
    var params := CollectParams(fields);
    if !validate(authToken, signature.GetOr(""), url, params) {
      return Forbidden;
    }
    var callSid := CallSidOf(params);
    var callerNumber := CallerOf(params);
    var conferenceName := q.Enqueue(callSid, callerNumber, now);
    reply := Hold(Twiml(Conference(false, true, Some(StatusCallbackUrl(appUrl)), conferenceName)));
  }
}
