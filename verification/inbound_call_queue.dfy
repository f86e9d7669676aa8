/**
 * The process-local queue of inbound calls waiting for an agent
 * (src/lib/inboundCallQueue.ts): a `Map` from call SID to waiting call, kept
 * in insertion order, and a `Set` of the call SIDs an agent has claimed.
 *
 * `QueueState` is the value of that state; the `*Step` functions say what each
 * exported operation does to it, and the class `CallQueue` performs the same
 * operations in place. `Date.now()` is the parameter `now` (milliseconds).
 */
module InboundCallQueue {
  import opened Wrappers
  import opened Seqs

  /** `getWaiting` purges entries received more than ten minutes ago. */
  const StaleAfterMs: int := 10 * 60 * 1000

  const ConferencePrefix: string := "inbound-"

  datatype WaitingCall = WaitingCall(
    callSid: string,
    callerNumber: string,
    conferenceName: string,
    receivedAt: int)

  /** The hold-conference name `enqueue` derives from a call SID. */
  function ConferenceNameFor(callSid: string): (name: string)
    ensures |name| == |ConferencePrefix| + |callSid|
    ensures name[..|ConferencePrefix|] == ConferencePrefix && name[|ConferencePrefix|..] == callSid
  {
    ConferencePrefix + callSid
  }

  /** `queue` with its key order, and the claimed set. */
  datatype QueueState = QueueState(
    queue: map<string, WaitingCall>,
    order: seq<string>,
    claimed: set<string>)

  const Empty := QueueState(map[], [], {})

  /**
   * What every reachable state satisfies: the key order lists each key once,
   * and each entry is stored under its own SID with the derived conference
   * name. `claimed` is NOT required to be a subset of the queue's keys: the
   * purge drops entries without unclaiming them.
   */
  ghost predicate WellFormed(st: QueueState) {
    && NoDup(st.order)
    && (forall k :: k in st.order <==> k in st.queue)
    && (forall k :: k in st.queue ==>
          st.queue[k].callSid == k && st.queue[k].conferenceName == ConferenceNameFor(k))
  }

  // -----------------------------------------------------------------------
  // The operations on values

  /** `enqueue`: set (or overwrite) the entry; a new SID goes to the end of the order. */
  function EnqueueStep(st: QueueState, callSid: string, callerNumber: string, now: int): (r: QueueState)
    ensures callSid in r.queue
    ensures r.queue[callSid] == WaitingCall(callSid, callerNumber, ConferenceNameFor(callSid), now)
    ensures forall k :: k != callSid ==> (k in r.queue <==> k in st.queue)
    ensures forall k :: k != callSid && k in st.queue ==> r.queue[k] == st.queue[k]
    ensures r.claimed == st.claimed
    ensures WellFormed(st) ==> WellFormed(r)
    ensures WellFormed(st) && callSid in st.queue ==> r.order == st.order
  {
    var call := WaitingCall(callSid, callerNumber, ConferenceNameFor(callSid), now);
    QueueState(
      st.queue[callSid := call],
      if callSid in st.queue then st.order else st.order + [callSid],
      st.claimed)
  }

  /** An entry survives the purge unless it was received strictly before `cutoff`. */
  predicate Fresh(call: WaitingCall, cutoff: int) {
    call.receivedAt >= cutoff
  }

  /** The keys of `order` whose entries are fresh, in their order. */
  function KeepFresh(order: seq<string>, queue: map<string, WaitingCall>, cutoff: int): seq<string>
    decreases |order|
  {
    if order == [] then []
    else
      var last := order[|order| - 1];
      KeepFresh(order[..|order| - 1], queue, cutoff) + (if last in queue && Fresh(queue[last], cutoff) then [last] else [])
  }

  /** `KeepFresh` keeps exactly the fresh keys, each once. */
  lemma {:induction false} KeepFreshMembers(order: seq<string>, queue: map<string, WaitingCall>, cutoff: int)
    ensures forall k :: k in KeepFresh(order, queue, cutoff) <==> k in order && k in queue && Fresh(queue[k], cutoff)
    ensures NoDup(order) ==> NoDup(KeepFresh(order, queue, cutoff))
    decreases |order|
  {
    if order != [] {
      var init, last := order[..|order| - 1], order[|order| - 1];
      KeepFreshMembers(init, queue, cutoff);
      assert order == init + [last];
      if NoDup(order) {
        assert NoDup(init);
        assert last !in init;
      }
    }
  }

  /** The purge loop of `getWaiting`: delete every entry received before `cutoff`. */
  function PurgeStep(st: QueueState, cutoff: int): (r: QueueState)
    requires WellFormed(st)
    ensures WellFormed(r)
    ensures forall k :: k in r.queue <==> k in st.queue && Fresh(st.queue[k], cutoff)
    ensures forall k :: k in r.queue ==> r.queue[k] == st.queue[k]
    ensures r.claimed == st.claimed
  {
    KeepFreshMembers(st.order, st.queue, cutoff);
    QueueState(
      map k | k in st.queue && Fresh(st.queue[k], cutoff) :: st.queue[k],
      KeepFresh(st.order, st.queue, cutoff),
      st.claimed)
  }

  /** The entries of the keys in `order` that are not claimed, in that order. */
  function Unclaimed(order: seq<string>, queue: map<string, WaitingCall>, claimed: set<string>): (r: seq<WaitingCall>)
    requires forall k :: k in order ==> k in queue && queue[k].callSid == k
    ensures forall i :: 0 <= i < |r| ==>
      r[i].callSid in order && r[i].callSid !in claimed && queue[r[i].callSid] == r[i]
    ensures forall k :: k in order && k !in claimed ==> queue[k] in r
    decreases |order|
  {
    if order == [] then []
    else
      var last := order[|order| - 1];
      Unclaimed(order[..|order| - 1], queue, claimed) + (if last !in claimed then [queue[last]] else [])
  }

  /** The list `getWaiting` returns after its purge: the unclaimed entries in insertion order. */
  function Waiting(st: QueueState): seq<WaitingCall>
    requires WellFormed(st)
  {
    Unclaimed(st.order, st.queue, st.claimed)
  }

  /** `claimCall`: fails on a claimed or unknown SID, otherwise marks it claimed and returns its entry. */
  function ClaimStep(st: QueueState, callSid: string): (Option<WaitingCall>, QueueState) {
    if callSid in st.claimed || callSid !in st.queue then (None, st)
    else (Some(st.queue[callSid]), st.(claimed := st.claimed + {callSid}))
  }

  /** `dequeue`: forget the SID in both the queue and the claimed set. */
  function DequeueStep(st: QueueState, callSid: string): (r: QueueState)
    ensures callSid !in r.queue && callSid !in r.claimed
    ensures forall k :: k != callSid ==> (k in r.queue <==> k in st.queue) && (k in r.claimed <==> k in st.claimed)
    ensures forall k :: k in r.queue ==> r.queue[k] == st.queue[k]
    ensures WellFormed(st) ==> WellFormed(r)
  {
    RemoveKeepsNoDup(st.order, callSid);
    QueueState(st.queue - {callSid}, Remove(st.order, callSid), st.claimed - {callSid})
  }

  // -----------------------------------------------------------------------
  // Properties of the operations

  /** Every call `getWaiting` returns is queued (after the purge), unexpired and unclaimed. */
  lemma GetWaitingSound(st: QueueState, now: int)
    requires WellFormed(st)
    ensures var purged := PurgeStep(st, now - StaleAfterMs);
      forall w :: w in Waiting(purged) ==>
        && w.callSid in purged.queue && purged.queue[w.callSid] == w
        && w.receivedAt >= now - StaleAfterMs
        && w.callSid !in st.claimed
  {
    var purged := PurgeStep(st, now - StaleAfterMs);
    forall w | w in Waiting(purged)
      ensures w.callSid in purged.queue && purged.queue[w.callSid] == w
      ensures w.receivedAt >= now - StaleAfterMs && w.callSid !in st.claimed
    {
      var i :| 0 <= i < |Waiting(purged)| && Waiting(purged)[i] == w;
      assert st.queue[w.callSid] == w;
    }
  }

  /** ...and `getWaiting` returns every queued, unexpired, unclaimed call. */
  lemma GetWaitingComplete(st: QueueState, now: int, callSid: string)
    requires WellFormed(st)
    requires callSid in st.queue && st.queue[callSid].receivedAt >= now - StaleAfterMs
    requires callSid !in st.claimed
    ensures st.queue[callSid] in Waiting(PurgeStep(st, now - StaleAfterMs))
  {
    var purged := PurgeStep(st, now - StaleAfterMs);
    assert callSid in purged.order;
  }

  /** The purge boundary: an entry exactly ten minutes old survives, one a millisecond older is deleted. */
  lemma PurgeBoundary(st: QueueState, now: int, callSid: string)
    requires WellFormed(st) && callSid in st.queue
    ensures st.queue[callSid].receivedAt == now - StaleAfterMs ==>
      callSid in PurgeStep(st, now - StaleAfterMs).queue
    ensures st.queue[callSid].receivedAt == now - StaleAfterMs - 1 ==>
      callSid !in PurgeStep(st, now - StaleAfterMs).queue
  {
  }

  /** A claimed call never reappears in `getWaiting`, even when it is re-enqueued. */
  lemma ClaimedNeverWaiting(st: QueueState, callSid: string, callerNumber: string, t: int, now: int)
    requires WellFormed(st) && callSid in st.claimed
    ensures var st' := EnqueueStep(st, callSid, callerNumber, t);
      forall w :: w in Waiting(PurgeStep(st', now - StaleAfterMs)) ==> w.callSid != callSid
  {
    var st' := EnqueueStep(st, callSid, callerNumber, t);
    GetWaitingSound(st', now);
  }

  /** A claim fails, and changes nothing, on a claimed or absent SID. */
  lemma ClaimFailsWhenTakenOrGone(st: QueueState, callSid: string)
    requires callSid in st.claimed || callSid !in st.queue
    ensures ClaimStep(st, callSid) == (None, st)
  {
  }

  /** A successful claim returns the queued entry, and a second claim of the same SID then fails. */
  lemma ClaimSucceedsOnce(st: QueueState, callSid: string)
    requires callSid in st.queue && callSid !in st.claimed
    ensures ClaimStep(st, callSid).0 == Some(st.queue[callSid])
    ensures ClaimStep(st, callSid).1.queue == st.queue
    ensures ClaimStep(st, callSid).1.claimed == st.claimed + {callSid}
    ensures var st' := ClaimStep(st, callSid).1; ClaimStep(st', callSid) == (None, st')
  {
  }

  /** Dequeueing twice is dequeueing once. */
  lemma {:induction false} DequeueIdempotent(st: QueueState, callSid: string)
    ensures DequeueStep(DequeueStep(st, callSid), callSid) == DequeueStep(st, callSid)
  {
    var once := DequeueStep(st, callSid);
    assert Remove(once.order, callSid) == once.order;
    assert once.queue - {callSid} == once.queue;
  }

  /** Enqueue followed by dequeue leaves the SID in neither structure. */
  lemma EnqueueDequeueRemoves(st: QueueState, callSid: string, callerNumber: string, now: int)
    ensures var r := DequeueStep(EnqueueStep(st, callSid, callerNumber, now), callSid);
      callSid !in r.queue && callSid !in r.claimed
  {
  }

  /** When the SID was neither queued nor claimed before, enqueue then dequeue restores the state exactly. */
  lemma {:induction false} EnqueueDequeueRoundTrip(st: QueueState, callSid: string, callerNumber: string, now: int)
    requires WellFormed(st)
    requires callSid !in st.queue && callSid !in st.claimed
    ensures DequeueStep(EnqueueStep(st, callSid, callerNumber, now), callSid) == st
  {
    var e := EnqueueStep(st, callSid, callerNumber, now);
    assert Remove(e.order, callSid) == st.order by {
      assert e.order == st.order + [callSid];
      RemoveAppend(st.order, [callSid], callSid);
      assert Remove([callSid], callSid) == [];
      assert callSid !in st.order;
    }
    assert e.queue - {callSid} == st.queue;
    assert e.claimed - {callSid} == st.claimed;
  }

  lemma {:induction false} RemoveAppend(a: seq<string>, b: seq<string>, x: string)
    ensures Remove(a + b, x) == Remove(a, x) + Remove(b, x)
  {
    if a != [] {
      RemoveAppend(a[1..], b, x);
      assert (a + b)[1..] == a[1..] + b;
    } else {
      assert a + b == b;
    }
  }

  // -----------------------------------------------------------------------
  // Claims over any sequence of operations

  /** One exported operation, as the route handlers invoke it. */
  datatype QueueOp =
    | Enq(callSid: string, callerNumber: string, now: int)
    | Read(now: int)
    | Claim(callSid: string)
    | Deq(callSid: string)

  function Apply(st: QueueState, op: QueueOp): (r: QueueState)
    requires WellFormed(st)
    ensures WellFormed(r)
  {
    match op
    case Enq(sid, n, now) => EnqueueStep(st, sid, n, now)
    case Read(now) => PurgeStep(st, now - StaleAfterMs)
    case Claim(sid) => ClaimStep(st, sid).1
    case Deq(sid) => DequeueStep(st, sid)
  }

  /** How many of `ops`, run from `st`, are successful claims of `x`. */
  function Wins(st: QueueState, ops: seq<QueueOp>, x: string): nat
    requires WellFormed(st)
    decreases |ops|
  {
    if ops == [] then 0
    else
      (if ops[0] == Claim(x) && ClaimStep(st, x).0.Some? then 1 else 0)
      + Wins(Apply(st, ops[0]), ops[1..], x)
  }

  /**
   * The single-winner guarantee: between dequeues of `x`, at most one claim of
   * `x` succeeds, whatever else is enqueued, read or claimed in between, and
   * none does when `x` is already claimed. (The purge keeps `claimed`, so an
   * expired entry that is enqueued again cannot be claimed twice either.)
   */
  lemma {:induction false} AtMostOneClaimWins(st: QueueState, ops: seq<QueueOp>, x: string)
    requires WellFormed(st)
    requires forall i :: 0 <= i < |ops| ==> ops[i] != Deq(x)
    ensures Wins(st, ops, x) <= if x in st.claimed then 0 else 1
    decreases |ops|
  {
    if ops != [] {
      var st' := Apply(st, ops[0]);
      assert x in st.claimed ==> x in st'.claimed;
      assert ops[0] == Claim(x) && ClaimStep(st, x).0.Some? ==> x in st'.claimed && x !in st.claimed;
      AtMostOneClaimWins(st', ops[1..], x);
    }
  }

  lemma SameEntries(a: map<string, WaitingCall>, b: map<string, WaitingCall>)
    requires forall k :: k in a <==> k in b
    requires forall k :: k in a ==> a[k] == b[k]
    ensures a == b
  {
  }

  /** Visiting one more key of the purge loop extends the kept prefix by at most that key. */
  lemma KeepFreshSnoc(keys: seq<string>, i: nat, q0: map<string, WaitingCall>, cutoff: int)
    requires i < |keys| && keys[i] in q0
    ensures KeepFresh(keys[..i + 1], q0, cutoff)
      == KeepFresh(keys[..i], q0, cutoff) + (if Fresh(q0[keys[i]], cutoff) then [keys[i]] else [])
  {
    assert keys[..i + 1][..i] == keys[..i];
  }

  lemma NoDupAt(keys: seq<string>, i: nat)
    requires NoDup(keys) && i < |keys|
    ensures keys[i] !in keys[..i] && keys[i] !in keys[i + 1..]
  {
    var before, after := keys[..i], keys[i + 1..];
    forall j | 0 <= j < |before| ensures before[j] != keys[i] {
      assert before[j] == keys[j];
    }
    forall j | 0 <= j < |after| ensures after[j] != keys[i] {
      assert after[j] == keys[i + 1 + j];
    }
  }

  lemma SplitAt(keys: seq<string>, i: nat)
    requires i < |keys|
    ensures keys[i..] == [keys[i]] + keys[i + 1..]
  {
  }

  /** Deleting a key that occurs once, between `kept` and `rest`. */
  lemma RemoveBetween(kept: seq<string>, sid: string, rest: seq<string>)
    requires sid !in kept && sid !in rest
    ensures Remove(kept + ([sid] + rest), sid) == kept + rest
  {
    RemoveAppend(kept, [sid] + rest, sid);
    RemoveAppend([sid], rest, sid);
    assert Remove([sid], sid) == [];
  }

  /** The queue after the purge loop has visited the keys `ks`, deleting the stale ones. */
  function PurgeQueue(q0: map<string, WaitingCall>, ks: seq<string>, cutoff: int): map<string, WaitingCall>
    decreases |ks|
  {
    if ks == [] then q0
    else
      var last := ks[|ks| - 1];
      var q := PurgeQueue(q0, ks[..|ks| - 1], cutoff);
      if last in q0 && !Fresh(q0[last], cutoff) then q - {last} else q
  }

  /** After visiting `ks`, an entry is left exactly when it was not visited or is fresh. */
  lemma {:induction false} PurgeQueueEntries(q0: map<string, WaitingCall>, ks: seq<string>, cutoff: int)
    ensures forall k :: k in PurgeQueue(q0, ks, cutoff) <==> k in q0 && (k !in ks || Fresh(q0[k], cutoff))
    ensures forall k :: k in PurgeQueue(q0, ks, cutoff) ==> PurgeQueue(q0, ks, cutoff)[k] == q0[k]
    decreases |ks|
  {
    if ks != [] {
      var init := ks[..|ks| - 1];
      PurgeQueueEntries(q0, init, cutoff);
      assert ks == init + [ks[|ks| - 1]];
    }
  }

  lemma PurgeQueueSnoc(q0: map<string, WaitingCall>, keys: seq<string>, i: nat, cutoff: int)
    requires i < |keys| && keys[i] in q0
    ensures PurgeQueue(q0, keys[..i + 1], cutoff)
      == if Fresh(q0[keys[i]], cutoff) then PurgeQueue(q0, keys[..i], cutoff)
         else PurgeQueue(q0, keys[..i], cutoff) - {keys[i]}
  {
    assert keys[..i + 1][..i] == keys[..i];
  }

  /** A fresh key stays in the order: the loop's order invariant advances by one. */
  lemma PurgeTurnFresh(keys: seq<string>, i: nat, q0: map<string, WaitingCall>, cutoff: int)
    requires i < |keys| && keys[i] in q0
    requires Fresh(q0[keys[i]], cutoff)
    ensures KeepFresh(keys[..i], q0, cutoff) + keys[i..] == KeepFresh(keys[..i + 1], q0, cutoff) + keys[i + 1..]
  {
    KeepFreshSnoc(keys, i, q0, cutoff);
    SplitAt(keys, i);
  }

  /** A stale key is removed from the order: the loop's order invariant advances by one. */
  lemma PurgeTurnStale(keys: seq<string>, i: nat, q0: map<string, WaitingCall>, cutoff: int)
    requires i < |keys| && NoDup(keys) && keys[i] in q0
    requires !Fresh(q0[keys[i]], cutoff)
    ensures Remove(KeepFresh(keys[..i], q0, cutoff) + keys[i..], keys[i])
      == KeepFresh(keys[..i + 1], q0, cutoff) + keys[i + 1..]
  {
    KeepFreshSnoc(keys, i, q0, cutoff);
    SplitAt(keys, i);
    NoDupAt(keys, i);
    KeepFreshMembers(keys[..i], q0, cutoff);
    RemoveBetween(KeepFresh(keys[..i], q0, cutoff), keys[i], keys[i + 1..]);
  }

  /**
   * The loop itself: walk a snapshot of the keys and delete each stale entry
   * from the map and from the order.
   */
  method PurgeLoop(q0: map<string, WaitingCall>, keys: seq<string>, cutoff: int)
    returns (queue: map<string, WaitingCall>, order: seq<string>)
    requires NoDup(keys) && forall k :: k in keys ==> k in q0
    ensures queue == PurgeQueue(q0, keys, cutoff)
    ensures order == KeepFresh(keys, q0, cutoff)
  {
    queue, order := q0, keys;
    var i := 0;
    while i < |keys|
      invariant 0 <= i <= |keys|
      invariant order == KeepFresh(keys[..i], q0, cutoff) + keys[i..]
      invariant queue == PurgeQueue(q0, keys[..i], cutoff)
    {
      var sid := keys[i];
      NoDupAt(keys, i);
      PurgeQueueEntries(q0, keys[..i], cutoff);
      PurgeQueueSnoc(q0, keys, i, cutoff);
      if queue[sid].receivedAt < cutoff {
        PurgeTurnStale(keys, i, q0, cutoff);
        queue := queue - {sid};
        order := Remove(order, sid);
      } else {
        PurgeTurnFresh(keys, i, q0, cutoff);
      }
      i := i + 1;
    }
    assert keys[..i] == keys;
  }

  // -----------------------------------------------------------------------
  // The module-level Map and Set, updated in place

  class CallQueue {
    var queue: map<string, WaitingCall>
    var order: seq<string>
    var claimed: set<string>

    function State(): QueueState
      reads this
    {
      QueueState(queue, order, claimed)
    }

    ghost predicate Valid()
      reads this
    {
      WellFormed(State())
    }

    constructor ()
      ensures Valid() && State() == Empty
    {
      queue, order, claimed := map[], [], {};
    }

    /** `enqueue(callSid, callerNumber)` at time `now`. */
    method Enqueue(callSid: string, callerNumber: string, now: int) returns (conferenceName: string)
      requires Valid()
      modifies this
      ensures Valid()
      ensures conferenceName == ConferenceNameFor(callSid)
      ensures State() == EnqueueStep(old(State()), callSid, callerNumber, now)
      ensures claimed == old(claimed)
    {
      conferenceName := ConferencePrefix + callSid;
      if callSid !in queue {
        order := order + [callSid];
      }
      queue := queue[callSid := WaitingCall(callSid, callerNumber, conferenceName, now)];
    }

    /** `getWaiting()` at time `now`: purge in place, then list the unclaimed calls. */
    method GetWaiting(now: int) returns (calls: seq<WaitingCall>)
      requires Valid()
      modifies this
      ensures Valid()
      ensures State() == PurgeStep(old(State()), now - StaleAfterMs)
      ensures calls == Waiting(State())
      ensures claimed == old(claimed)
    {
      Purge(now - StaleAfterMs);
      calls := Unclaimed(order, queue, claimed);
    }

    /** The purge loop of `getWaiting`, in place. */
    method Purge(cutoff: int)
      requires Valid()
      modifies this
      ensures Valid()
      ensures State() == PurgeStep(old(State()), cutoff)
    {
      var q0 := queue;
      queue, order := PurgeLoop(queue, order, cutoff);
      PurgeQueueEntries(q0, old(order), cutoff);
      ghost var target := PurgeStep(old(State()), cutoff);
      SameEntries(queue, target.queue);
    }

    /** `claimCall(callSid)`: the check-and-set. */
    method ClaimCall(callSid: string) returns (call: Option<WaitingCall>)
      requires Valid()
      modifies this
      ensures Valid()
      ensures (call, State()) == ClaimStep(old(State()), callSid)
      ensures call.Some? <==> old(callSid !in claimed && callSid in queue)
    {
      if callSid in claimed || callSid !in queue {
        return None;
      }
      claimed := claimed + {callSid};
      call := Some(queue[callSid]);
    }

    /** `dequeue(callSid)`. */
    method Dequeue(callSid: string)
      requires Valid()
      modifies this
      ensures Valid()
      ensures State() == DequeueStep(old(State()), callSid)
    {
      RemoveKeepsNoDup(order, callSid);
      queue := queue - {callSid};
      order := Remove(order, callSid);
      claimed := claimed - {callSid};
    }
  }
}
