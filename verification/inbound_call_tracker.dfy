/**
 * The process-local record of which inbound conferences an agent has already
 * taken (src/lib/inboundCallTracker.ts): a `Map` from conference SID to the
 * identity of the agent who claimed it. Claiming is first-come: a conference
 * stays with its first claimant until it is released.
 *
 * `ClaimStep`/`ReleaseStep` are the operations on the map's value; the class
 * `ConferenceTracker` performs them in place.
 */
module InboundCallTracker {

  /** `claimConference`: succeeds only on an unclaimed conference, and then records the agent. */
  function ClaimStep(claimed: map<string, string>, conferenceSid: string, agent: string): (bool, map<string, string>) {
    if conferenceSid in claimed then (false, claimed)
    else (true, claimed[conferenceSid := agent])
  }

  /** `releaseConference`: forget the conference, whether or not it was claimed. */
  function ReleaseStep(claimed: map<string, string>, conferenceSid: string): map<string, string> {
    claimed - {conferenceSid}
  }

  /** A claim of an unclaimed conference returns true and records exactly that agent. */
  lemma ClaimUnclaimed(claimed: map<string, string>, conferenceSid: string, agent: string)
    requires conferenceSid !in claimed
    ensures ClaimStep(claimed, conferenceSid, agent).0
    ensures var after := ClaimStep(claimed, conferenceSid, agent).1;
      conferenceSid in after && after[conferenceSid] == agent
      && forall c :: c != conferenceSid ==> (c in after <==> c in claimed)
  {
  }

  /** A claim of a claimed conference returns false and keeps the recorded agent. */
  lemma ClaimTaken(claimed: map<string, string>, conferenceSid: string, agent: string)
    requires conferenceSid in claimed
    ensures ClaimStep(claimed, conferenceSid, agent) == (false, claimed)
  {
  }

  /** Releasing is idempotent and leaves every other conference as it was. */
  lemma ReleaseOnlyItsOwn(claimed: map<string, string>, conferenceSid: string)
    ensures conferenceSid !in ReleaseStep(claimed, conferenceSid)
    ensures ReleaseStep(ReleaseStep(claimed, conferenceSid), conferenceSid) == ReleaseStep(claimed, conferenceSid)
    ensures forall c :: c != conferenceSid ==>
      (c in ReleaseStep(claimed, conferenceSid) <==> c in claimed)
      && (c in claimed ==> ReleaseStep(claimed, conferenceSid)[c] == claimed[c])
  {
  }

  /** One call into the tracker. */
  datatype TrackerOp =
    | ClaimOp(conferenceSid: string, agent: string)
    | ReleaseOp(conferenceSid: string)
    | IsClaimedOp(conferenceSid: string)

  function Apply(claimed: map<string, string>, op: TrackerOp): map<string, string> {
    match op
    case ClaimOp(c, a) => ClaimStep(claimed, c, a).1
    case ReleaseOp(c) => ReleaseStep(claimed, c)
    case IsClaimedOp(_) => claimed
  }

  /** How many of `ops`, run from `claimed`, are claims of `c` that return true. */
  function Wins(claimed: map<string, string>, ops: seq<TrackerOp>, c: string): nat
    decreases |ops|
  {
    if ops == [] then 0
    else
      (if ops[0].ClaimOp? && ops[0].conferenceSid == c && ClaimStep(claimed, c, ops[0].agent).0 then 1 else 0)
      + Wins(Apply(claimed, ops[0]), ops[1..], c)
  }

  /** The map after running `ops` from `claimed`. */
  function Run(claimed: map<string, string>, ops: seq<TrackerOp>): map<string, string>
    decreases |ops|
  {
    if ops == [] then claimed else Run(Apply(claimed, ops[0]), ops[1..])
  }

  /** No release of `c` among `ops`. */
  predicate NoRelease(ops: seq<TrackerOp>, c: string) {
    forall i :: 0 <= i < |ops| ==> ops[i] != ReleaseOp(c)
  }

  /**
   * Between releases of `c`, at most one claim of `c` returns true, and none
   * does when `c` is already claimed.
   */
  lemma {:induction false} AtMostOneClaimWins(claimed: map<string, string>, ops: seq<TrackerOp>, c: string)
    requires NoRelease(ops, c)
    ensures Wins(claimed, ops, c) <= if c in claimed then 0 else 1
    decreases |ops|
  {
    if ops != [] {
      var next := Apply(claimed, ops[0]);
      assert c in claimed ==> c in next && next[c] == claimed[c];
      assert NoRelease(ops[1..], c) by {
        forall i | 0 <= i < |ops[1..]| ensures ops[1..][i] != ReleaseOp(c) {
          assert ops[1..][i] == ops[i + 1];
        }
      }
      AtMostOneClaimWins(next, ops[1..], c);
    }
  }

  /**
   * Once claimed, a conference stays claimed by the same agent (so `isClaimed`
   * stays true) through any operations that do not release it.
   */
  lemma {:induction false} ClaimSticks(claimed: map<string, string>, ops: seq<TrackerOp>, c: string)
    requires c in claimed && NoRelease(ops, c)
    ensures c in Run(claimed, ops) && Run(claimed, ops)[c] == claimed[c]
    decreases |ops|
  {
    if ops != [] {
      var next := Apply(claimed, ops[0]);
      assert NoRelease(ops[1..], c) by {
        forall i | 0 <= i < |ops[1..]| ensures ops[1..][i] != ReleaseOp(c) {
          assert ops[1..][i] == ops[i + 1];
        }
      }
      ClaimSticks(next, ops[1..], c);
    }
  }

  /** The module-level `claimed` map, updated in place. */
  class ConferenceTracker {
    var claimed: map<string, string>

    constructor ()
      ensures claimed == map[]
    {
      claimed := map[];
    }

    /** `claimConference(conferenceSid, agentIdentity)`. */
    method ClaimConference(conferenceSid: string, agentIdentity: string) returns (ok: bool)
      modifies this
      ensures (ok, claimed) == ClaimStep(old(claimed), conferenceSid, agentIdentity)
      ensures ok <==> conferenceSid !in old(claimed)
      ensures conferenceSid in claimed
    {
      if conferenceSid in claimed {
        return false;
      }
      claimed := claimed[conferenceSid := agentIdentity];
      ok := true;
    }

    /** `releaseConference(conferenceSid)`. */
    method ReleaseConference(conferenceSid: string)
      modifies this
      ensures claimed == ReleaseStep(old(claimed), conferenceSid)
      ensures conferenceSid !in claimed
    {
      claimed := claimed - {conferenceSid};
    }

    /** `isClaimed(conferenceSid)`. */
    method IsClaimed(conferenceSid: string) returns (b: bool)
      ensures b <==> conferenceSid in claimed
    {
      b := conferenceSid in claimed;
    }
  }
}
