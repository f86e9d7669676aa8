/**
 * What the server handlers share: the signed-in session, the agent identity
 * derived from it, the loosely typed JSON values the handlers read from a
 * request body, the conference TwiML they send to the telephony provider,
 * and the outbound-call requests they make through the provider's
 * `calls.create`. The provider itself is outside the model: a call request's
 * outcome is an input, and every request a handler issues is recorded in the
 * ghost sequence of a `CallLog`.
 */
module Telephony {
  import opened Wrappers
  import opened JsStrings

  // -----------------------------------------------------------------------
  // Sessions and identities

  /** The session's user: `email` may be missing, `id` and `role` are strings. */
  datatype Session = Session(email: Option<string>, id: string, role: string)

  /**
   * `session.user.email || \`user-${session.user.id}\``: the identity the
   * browser's voice client registers under.
   */
  function AgentIdentity(s: Session): string {
    if Truthy(s.email) then s.email.value else "user-" + s.id
  }

  /** An identity is never empty, so it always names some client. */
  lemma IdentityNonEmpty(s: Session)
    ensures |AgentIdentity(s)| > 0
  {
  }

  /**
   * Two different users can get the same identity: one whose email is the
   * text "user-7" and one with id "7" and no email.
   */
  lemma IdentityCollision()
    ensures AgentIdentity(Session(Some("user-7"), "1", "agent"))
      == AgentIdentity(Session(None, "7", "agent"))
  {
  }

  // -----------------------------------------------------------------------
  // JSON request values

  /** A value read from a JSON body; `Missing` is a property that is not there. */
  datatype JsonValue =
    | Missing
    | JNull
    | JBool(b: bool)
    | JNumber(n: int)
    | JString(s: string)
    | JCompound   // an object or an array

  /** JavaScript truthiness of a JSON value. */
  predicate JsonTruthy(v: JsonValue) {
    match v
    case Missing => false
    case JNull => false
    case JBool(b) => b
    case JNumber(n) => n != 0
    case JString(s) => s != ""
    case JCompound => true
  }

  // -----------------------------------------------------------------------
  // Conference TwiML

  /**
   * A `<Dial><Conference>` instruction: the room name, the two flags, and
   * (for the inbound hold) the URL that hears the conference's `end` event.
   */
  datatype Conference = Conference(
    startOnEnter: bool,
    endOnExit: bool,
    endCallback: Option<string>,
    room: string)

  const TwimlOpen: string := "<Response><Dial><Conference startConferenceOnEnter=\""
  const TwimlEndAttr: string := "\" endConferenceOnExit=\""
  const TwimlBeepAttr: string := "\" beep=\"false\""
  const TwimlCallbackOpen: string := " statusCallbackEvent=\"end\" statusCallback=\""
  const TwimlCallbackMethod: string := " statusCallbackMethod=\"POST\""
  const TwimlCallbackClose: string := "\"" + TwimlCallbackMethod
  const TwimlClose: string := "</Conference></Dial></Response>"

  function BoolText(b: bool): string {
    if b then "true" else "false"
  }

  function CallbackAttrs(cb: Option<string>): string {
    match cb
    case None => ""
    case Some(url) => TwimlCallbackOpen + url + TwimlCallbackClose
  }

  /** The TwiML text the handlers write for a conference. */
  function Twiml(c: Conference): string {
    TwimlOpen + BoolText(c.startOnEnter) + TwimlEndAttr + BoolText(c.endOnExit) + TwimlBeepAttr
    + CallbackAttrs(c.endCallback) + ">" + c.room + TwimlClose
  }

  // A reader for the TwiML above, so that what a request carries can be
  // stated as the conference it describes.

  /** `s` without the leading `lit`, if `s` starts with it. */
  function Consume(s: string, lit: string): Option<string> {
    if StartsWith(s, lit) then Some(s[|lit|..]) else None
  }

  lemma ConsumeConcat(lit: string, rest: string)
    ensures Consume(lit + rest, lit) == Some(rest)
  {
    assert (lit + rest)[..|lit|] == lit;
    assert (lit + rest)[|lit|..] == rest;
  }

  function ParseBool(s: string): Option<(bool, string)> {
    match Consume(s, "true")
    case Some(rest) => Some((true, rest))
    case None =>
      match Consume(s, "false")
      case Some(rest) => Some((false, rest))
      case None => None
  }

  lemma ParseBoolText(b: bool, rest: string)
    ensures ParseBool(BoolText(b) + rest) == Some((b, rest))
  {
    ConsumeConcat(BoolText(b), rest);
    if !b {
      assert (BoolText(b) + rest)[0] == 'f';
    }
  }

  /** The text up to the first double quote, and what follows that quote. */
  function UpToQuote(s: string): Option<(string, string)>
    decreases |s|
  {
    if s == [] then None
    else if s[0] == '"' then Some(([], s[1..]))
    else
      match UpToQuote(s[1..])
      case None => None
      case Some(p) => Some(([s[0]] + p.0, p.1))
  }

  lemma {:induction false} UpToQuoteSplit(u: string, rest: string)
    requires '"' !in u
    ensures UpToQuote(u + "\"" + rest) == Some((u, rest))
    decreases |u|
  {
    if u == [] {
      assert u + "\"" + rest == "\"" + rest;
    } else {
      assert (u + "\"" + rest)[1..] == u[1..] + "\"" + rest;
      UpToQuoteSplit(u[1..], rest);
      assert [u[0]] + u[1..] == u;
    }
  }

  /** The room: everything before the closing tags at the very end. */
  function RoomBeforeClose(s: string): Option<string> {
    if EndsWith(s, TwimlClose) then Some(s[..|s| - |TwimlClose|]) else None
  }

  lemma RoomBeforeCloseConcat(room: string)
    ensures RoomBeforeClose(room + TwimlClose) == Some(room)
  {
    assert (room + TwimlClose)[|room|..] == TwimlClose;
    assert (room + TwimlClose)[..|room|] == room;
  }

  /** The callback attributes (if any) and the `>` that closes the start tag. */
  function ParseCallback(s: string): Option<(Option<string>, string)> {
    match Consume(s, ">")
    case Some(rest) => Some((None, rest))
    case None =>
      match Consume(s, TwimlCallbackOpen)
      case None => None
      case Some(s1) =>
        match UpToQuote(s1)
        case None => None
        case Some(p) =>
          match Consume(p.1, TwimlCallbackMethod + ">")
          case None => None
          case Some(rest) => Some((Some(p.0), rest))
  }

  lemma ConsumeMismatch(s: string, lit: string)
    requires |s| > 0 && |lit| > 0 && s[0] != lit[0]
    ensures Consume(s, lit) == None
  {
  }

  lemma ParseCallbackText(cb: Option<string>, rest: string)
    requires cb.Some? ==> '"' !in cb.value
    ensures ParseCallback(CallbackAttrs(cb) + ">" + rest) == Some((cb, rest))
  {
    if cb.None? {
      assert CallbackAttrs(cb) + ">" + rest == ">" + rest;
      ConsumeConcat(">", rest);
    } else {
      ParseCallbackSome(cb.value, rest);
    }
  }

  /** `ParseCallback` in terms of the results of its steps. */
  lemma ParseCallbackSteps(s: string, s1: string, url: string, s2: string, rest: string)
    requires Consume(s, ">").None? && Consume(s, TwimlCallbackOpen) == Some(s1)
    requires UpToQuote(s1) == Some((url, s2)) && Consume(s2, TwimlCallbackMethod + ">") == Some(rest)
    ensures ParseCallback(s) == Some((Some(url), rest))
  {
  }

  lemma ParseCallbackSome(url: string, rest: string)
    requires '"' !in url
    ensures ParseCallback(CallbackAttrs(Some(url)) + ">" + rest) == Some((Some(url), rest))
  {
    var tail := TwimlCallbackMethod + ">";
    var s := TwimlCallbackOpen + (url + "\"" + (tail + rest));
    CallbackRegroup(TwimlCallbackOpen, url, "\"", TwimlCallbackMethod, ">", rest);
    assert s[0] == TwimlCallbackOpen[0];
    ConsumeMismatch(s, ">");
    ConsumeConcat(TwimlCallbackOpen, url + "\"" + (tail + rest));
    UpToQuoteSplit(url, tail + rest);
    ConsumeConcat(tail, rest);
    ParseCallbackSteps(s, url + "\"" + (tail + rest), url, tail + rest, rest);
  }

  lemma CallbackRegroup(o: string, u: string, q: string, m: string, g: string, r: string)
    ensures o + u + (q + m) + g + r == o + (u + q + (m + g + r))
  {
  }

  /** After the flags: the callback attributes, the room and the closing tags. */
  function ParseAfterFlags(s: string): Option<(Option<string>, string)> {
    match Consume(s, TwimlBeepAttr)
    case None => None
    case Some(s1) =>
      match ParseCallback(s1)
      case None => None
      case Some(p) =>
        match RoomBeforeClose(p.1)
        case None => None
        case Some(room) => Some((p.0, room))
  }

  /** After the first flag: the second flag and the rest. */
  function ParseAfterStart(s: string): Option<(bool, Option<string>, string)> {
    match Consume(s, TwimlEndAttr)
    case None => None
    case Some(s1) =>
      match ParseBool(s1)
      case None => None
      case Some(p) =>
        match ParseAfterFlags(p.1)
        case None => None
        case Some(q) => Some((p.0, q.0, q.1))
  }

  /** Read a conference instruction back from its TwiML. */
  function ParseTwiml(s: string): Option<Conference> {
    match Consume(s, TwimlOpen)
    case None => None
    case Some(s1) =>
      match ParseBool(s1)
      case None => None
      case Some(p) =>
        match ParseAfterStart(p.1)
        case None => None
        case Some(q) => Some(Conference(p.0, q.0, q.1, q.2))
  }

  lemma ParseAfterFlagsText(cb: Option<string>, room: string)
    requires cb.Some? ==> '"' !in cb.value
    ensures ParseAfterFlags(TwimlBeepAttr + (CallbackAttrs(cb) + ">" + (room + TwimlClose))) == Some((cb, room))
  {
    ConsumeConcat(TwimlBeepAttr, CallbackAttrs(cb) + ">" + (room + TwimlClose));
    ParseCallbackText(cb, room + TwimlClose);
    RoomBeforeCloseConcat(room);
  }

  lemma ParseAfterStartText(end: bool, cb: Option<string>, room: string)
    requires cb.Some? ==> '"' !in cb.value
    ensures ParseAfterStart(TwimlEndAttr + (BoolText(end) + (TwimlBeepAttr + (CallbackAttrs(cb) + ">" + (room + TwimlClose)))))
      == Some((end, cb, room))
  {
    var rest := TwimlBeepAttr + (CallbackAttrs(cb) + ">" + (room + TwimlClose));
    ConsumeConcat(TwimlEndAttr, BoolText(end) + rest);
    ParseBoolText(end, rest);
    ParseAfterFlagsText(cb, room);
  }

  lemma Reassociate(a: string, b: string, c: string, d: string, e: string, f: string, g: string, h: string, i: string)
    ensures a + b + c + d + e + f + g + h + i == a + (b + (c + (d + (e + ((f + g) + (h + i))))))
  {
  }

  /**
   * The TwiML a handler writes describes exactly the conference it was built
   * from: the room, both flags and the callback URL can be read back (a URL
   * holding a double quote would break the attribute).
   */
  lemma ParseTwimlRoundTrip(c: Conference)
    requires c.endCallback.Some? ==> '"' !in c.endCallback.value
    ensures ParseTwiml(Twiml(c)) == Some(c)
  {
    Reassociate(TwimlOpen, BoolText(c.startOnEnter), TwimlEndAttr, BoolText(c.endOnExit), TwimlBeepAttr,
      CallbackAttrs(c.endCallback), ">", c.room, TwimlClose);
    var rest := TwimlEndAttr + (BoolText(c.endOnExit) + (TwimlBeepAttr
      + (CallbackAttrs(c.endCallback) + ">" + (c.room + TwimlClose))));
    assert Twiml(c) == TwimlOpen + (BoolText(c.startOnEnter) + rest);
    ConsumeConcat(TwimlOpen, BoolText(c.startOnEnter) + rest);
    ParseBoolText(c.startOnEnter, rest);
    ParseAfterStartText(c.endOnExit, c.endCallback, c.room);
  }

  // -----------------------------------------------------------------------
  // Outbound call requests

  /** The arguments of `calls.create`: destination, caller id and TwiML. */
  datatype CallRequest = CallRequest(to: string, from: Option<string>, twiml: string)

  /** What `calls.create` resolves to, or the `message` of what it throws. */
  datatype DialResult = Created(sid: string) | Failed(message: Option<string>)

  /** `"client:" + identity`: the address of a browser voice client. */
  function ClientAddress(identity: string): string {
    "client:" + identity
  }

  /** The requests handlers have sent to `calls.create`, in order. */
  class CallLog {
    ghost var requests: seq<CallRequest>

    constructor ()
      ensures requests == []
    {
      requests := [];
    }

    /** Record that `req` was sent. */
    method Record(req: CallRequest)
      modifies this
      ensures requests == old(requests) + [req]
    {
      requests := requests + [req];
    }
  }
}
