/**
 * The process-local registry of agents who are online
 * (src/lib/agentAvailability.ts): a `Map` from agent identity to the time it
 * last registered. `getAvailableAgents` lists the keys in the map's insertion
 * order, which `order` records. `Date.now()` is the parameter `now`.
 */
module AgentAvailability {
  import opened Seqs

  /** The registry's value: the timestamps and the key order of the `Map`. */
  datatype Registry = Registry(available: map<string, int>, order: seq<string>)

  const Empty := Registry(map[], [])

  ghost predicate WellFormed(r: Registry) {
    NoDup(r.order) && forall id :: id in r.order <==> id in r.available
  }

  /** `setAvailable(identity)` at time `now`: a new identity goes last, a known one keeps its place. */
  function SetAvailableStep(r: Registry, identity: string, now: int): (r': Registry)
    ensures identity in r'.available && r'.available[identity] == now
    ensures forall id :: id != identity ==> (id in r'.available <==> id in r.available)
    ensures forall id :: id != identity && id in r.available ==> r'.available[id] == r.available[id]
    ensures WellFormed(r) ==> WellFormed(r')
    ensures WellFormed(r) && identity in r.available ==> r'.order == r.order
  {
    Registry(
      r.available[identity := now],
      if identity in r.available then r.order else r.order + [identity])
  }

  /** `setUnavailable(identity)`. */
  function SetUnavailableStep(r: Registry, identity: string): (r': Registry)
    ensures identity !in r'.available
    ensures forall id :: id != identity ==> (id in r'.available <==> id in r.available)
    ensures forall id :: id in r'.available ==> r'.available[id] == r.available[id]
    ensures WellFormed(r) ==> WellFormed(r')
  {
    RemoveKeepsNoDup(r.order, identity);
    Registry(r.available - {identity}, Remove(r.order, identity))
  }

  /** `isAvailable(identity)`. */
  predicate IsAvailable(r: Registry, identity: string) {
    identity in r.available
  }

  /** `getAvailableAgents()`: each online identity once, and nothing else. */
  function AvailableAgents(r: Registry): (agents: seq<string>)
    requires WellFormed(r)
    ensures NoDup(agents)
    ensures forall id :: id in agents <==> IsAvailable(r, id)
  {
    r.order
  }

  /** Registering twice only refreshes the timestamp: the listing does not change. */
  lemma SetAvailableTwice(r: Registry, identity: string, t1: int, t2: int)
    requires WellFormed(r)
    ensures var once := SetAvailableStep(r, identity, t1);
      var twice := SetAvailableStep(once, identity, t2);
      AvailableAgents(twice) == AvailableAgents(once) && twice.available[identity] == t2
  {
  }

  /** Unregistering is idempotent. */
  lemma {:induction false} SetUnavailableIdempotent(r: Registry, identity: string)
    ensures SetUnavailableStep(SetUnavailableStep(r, identity), identity) == SetUnavailableStep(r, identity)
  {
    var once := SetUnavailableStep(r, identity);
    assert Remove(once.order, identity) == once.order;
    assert once.available - {identity} == once.available;
  }

  /** The module-level `available` map, updated in place. */
  class AvailabilityRegistry {
    var available: map<string, int>
    var order: seq<string>

    function State(): Registry
      reads this
    {
      Registry(available, order)
    }

    ghost predicate Valid()
      reads this
    {
      WellFormed(State())
    }

    constructor ()
      ensures Valid() && State() == Empty
    {
      available, order := map[], [];
    }

    /** `setAvailable(identity)` at time `now`. */
    method SetAvailable(identity: string, now: int)
      requires Valid()
      modifies this
      ensures Valid()
      ensures State() == SetAvailableStep(old(State()), identity, now)
    {
      if identity !in available {
        order := order + [identity];
      }
      available := available[identity := now];
    }

    /** `setUnavailable(identity)`. */
    method SetUnavailable(identity: string)
      requires Valid()
      modifies this
      ensures Valid()
      ensures State() == SetUnavailableStep(old(State()), identity)
    {
      RemoveKeepsNoDup(order, identity);
      available := available - {identity};
      order := Remove(order, identity);
    }

    /** `isAvailable(identity)`. */
    method CheckAvailable(identity: string) returns (b: bool)
      ensures b == IsAvailable(State(), identity)
    {
      b := identity in available;
    }

    /** `getAvailableAgents()`. */
    method GetAvailableAgents() returns (agents: seq<string>)
      requires Valid()
      ensures NoDup(agents)
      ensures forall id :: id in agents <==> IsAvailable(State(), id)
      ensures agents == AvailableAgents(State())
    {
      agents := order;
    }
  }
}
