/**
 * The handler through which an agent's browser reads and sets the agent's own
 * availability (src/app/api/agents/availability/route.ts).
 */
module AvailabilityRoute {
  import opened Wrappers
  import opened Seqs
  import opened Telephony
  import opened AgentAvailability

  datatype GetReply =
    | GetUnauthorized    // 401
    | Report(identity: string, available: bool, onlineAgents: seq<string>)

  datatype PostReply =
    | PostUnauthorized   // 401
    | Updated(identity: string, available: JsonValue)   // echoes the body's value

  /** What `POST` does to the registry's value: set or unset the caller's own identity. */
  function PostStep(r: Registry, session: Option<Session>, available: JsonValue, now: int): (PostReply, Registry) {
    match session
    case None => (PostUnauthorized, r)
    case Some(s) =>
      var identity := AgentIdentity(s);
      (Updated(identity, available),
       if JsonTruthy(available) then SetAvailableStep(r, identity, now) else SetUnavailableStep(r, identity))
  }

  /** Without a session: 401 and the registry is unchanged. */
  lemma PostNoSessionNoChange(r: Registry, available: JsonValue, now: int)
    ensures PostStep(r, None, available, now) == (PostUnauthorized, r)
  {
  }

  /**
   * A truthy `available` registers the caller's identity at `now`, anything
   * else unregisters it; no other identity's entry changes.
   */
  lemma PostTouchesOnlyCaller(r: Registry, s: Session, available: JsonValue, now: int)
    ensures var (reply, r') := PostStep(r, Some(s), available, now);
      var me := AgentIdentity(s);
      && reply == Updated(me, available)
      && (JsonTruthy(available) ==> me in r'.available && r'.available[me] == now)
      && (!JsonTruthy(available) ==> me !in r'.available)
      && (forall id :: id != me ==> (id in r'.available <==> id in r.available))
      && (forall id :: id != me && id in r.available ==> r'.available[id] == r.available[id])
  {
  }

  /** The registry stays well formed. */
  lemma PostKeepsWellFormed(r: Registry, session: Option<Session>, available: JsonValue, now: int)
    requires WellFormed(r)
    ensures WellFormed(PostStep(r, session, available, now).1)
  {
  }

  /** `GET`: reads the registry, changes nothing. */
  method Get(reg: AvailabilityRegistry, session: Option<Session>) returns (reply: GetReply)
    requires reg.Valid()
    ensures session.None? <==> reply == GetUnauthorized
    ensures session.Some? ==>
      && reply.identity == AgentIdentity(session.value)
      && (reply.available <==> AgentIdentity(session.value) in reg.available)
      && NoDup(reply.onlineAgents)
      && (forall id :: id in reply.onlineAgents <==> id in reg.available)
  {
    if session.None? {
      return GetUnauthorized;
    }
    var identity := AgentIdentity(session.value);
    var available := reg.CheckAvailable(identity);
    var online := reg.GetAvailableAgents();
    reply := Report(identity, available, online);
  }

  /** `POST`, run on the shared registry. */
  method Post(reg: AvailabilityRegistry, session: Option<Session>, available: JsonValue, now: int)
    returns (reply: PostReply)
    requires reg.Valid()
    modifies reg
    ensures reg.Valid()
    ensures (reply, reg.State()) == PostStep(old(reg.State()), session, available, now)
  {
    if session.None? {
      return PostUnauthorized;
    }
    var identity := AgentIdentity(session.value);
    if JsonTruthy(available) {
      reg.SetAvailable(identity, now);
    } else {
      reg.SetUnavailable(identity);
    }
    reply := Updated(identity, available);
  }
}
