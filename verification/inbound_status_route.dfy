/**
 * The webhook the provider calls when a hold conference ends
 * (src/app/api/twilio/inbound-status/route.ts): it recovers the call SID from
 * the conference's name and forgets the call. It checks no signature and
 * always answers "OK".
 */
module InboundStatusRoute {
  import opened Wrappers
  import opened JsStrings
  import opened FormData
  import opened InboundCallQueue

  /** `(formData.get("FriendlyName") ?? "").replace("inbound-", "")`: only the FIRST occurrence goes. */
  function RecoverCallSid(friendlyName: Option<string>): string {
    ReplaceFirst(friendlyName.GetOr(""), ConferencePrefix, "")
  }

  /** One callback: the reply text and the new queue value. */
  function InboundStatus(st: QueueState, fields: seq<Field>): (string, QueueState) {
    var callSid := RecoverCallSid(FirstValue(fields, "FriendlyName"));
    ("OK", if callSid != "" then DequeueStep(st, callSid) else st)
  }

  /** The conference name the queue gave a call gives that call's SID back. */
  lemma RecoverRoundTrip(callSid: string)
    ensures RecoverCallSid(Some(ConferenceNameFor(callSid))) == callSid
  {
    var name := ConferenceNameFor(callSid);
    assert OccursAt(name, ConferencePrefix, 0);
    assert IndexOf(name, ConferencePrefix) == Some(0);
  }

  /**
   * The end of a call's hold conference forgets exactly that call: the reply
   * is "OK" and the state is the dequeue of its SID.
   */
  lemma ConferenceEndDequeuesItsCall(st: QueueState, fields: seq<Field>, callSid: string)
    requires callSid != ""
    requires FirstValue(fields, "FriendlyName") == Some(ConferenceNameFor(callSid))
    ensures InboundStatus(st, fields) == ("OK", DequeueStep(st, callSid))
  {
    RecoverRoundTrip(callSid);
  }

  /** A name without the prefix is used unchanged as the SID. */
  lemma NameWithoutPrefixUnchanged(name: string)
    requires !Includes(name, "inbound-")
    ensures RecoverCallSid(Some(name)) == name
  {
  }

  /** The prefix is removed wherever it first occurs, not only at the start. */
  lemma PrefixRemovedAnywhere()
    ensures RecoverCallSid(Some("xinbound-y")) == "xy"
  {
    assert "xinbound-y"[0..8][0] != ConferencePrefix[0];
    assert OccursAt("xinbound-y", ConferencePrefix, 1);
    assert IndexOf("xinbound-y", ConferencePrefix) == Some(1);
  }

  /** An empty recovered SID (no name, "", or exactly "inbound-") dequeues nothing; the reply is always "OK". */
  lemma EmptySidNoChange(st: QueueState, fields: seq<Field>)
    ensures InboundStatus(st, fields).0 == "OK"
    ensures RecoverCallSid(FirstValue(fields, "FriendlyName")) == "" ==> InboundStatus(st, fields).1 == st
    ensures FirstValue(fields, "FriendlyName").None? ==> InboundStatus(st, fields).1 == st
  {
  }

  /** `POST`, run on the shared queue. */
  method Post(q: CallQueue, fields: seq<Field>) returns (reply: string)
    requires q.Valid()
    modifies q
    ensures q.Valid()
    ensures (reply, q.State()) == InboundStatus(old(q.State()), fields)
  {
    var friendlyName := FirstValue(fields, "FriendlyName").GetOr("");
    var callSid := ReplaceFirst(friendlyName, ConferencePrefix, "");
    if callSid != "" {
      q.Dequeue(callSid);
    }
    reply := "OK";
  }
}
