/**
 * Work that is under way at most once per key: whoever asks for it meanwhile gets the same promise. This is how the
 * cleanups and retries of an environment and the cancellations of an owner are kept from piling up.
 */
module Coalescing {
  import opened Common

  class Flights<K(==)> {
    /** The flight that is under way for a key. */
    var current: map<K, nat>
    /** The key of every flight there has been. */
    var begun: seq<K>
    ghost var landed: set<nat>

    /** A flight that has not landed is the one its key names, so a key has at most one. */
    ghost predicate Valid() reads this {
      && (forall k | k in current :: current[k] < |begun| && begun[current[k]] == k && current[k] !in landed)
      && (forall f | f in landed :: f < |begun|)
      && (forall f: nat | f < |begun| && f !in landed :: begun[f] in current && current[begun[f]] == f)
    }

    constructor ()
      ensures Valid() && current == map[] && begun == []
    {
      current, begun, landed := map[], [], {};
    }

    /** The key's flight, started if there is none. */
    method Join(k: K) returns (flight: nat)
      requires Valid()
      modifies this
      ensures Valid() && k in current && current[k] == flight && landed == old(landed)
      ensures if k in old(current) then flight == old(current)[k] && begun == old(begun) && current == old(current)
              else flight == |old(begun)| && begun == old(begun) + [k] && current == old(current)[k := flight]
    {
      if k in current { return current[k]; }
      flight := |begun|;
      begun := begun + [k];
      current := current[k := flight];
    }

    /** The `finally` of a flight: its key is free again, unless another flight has taken it. */
    method Land(flight: nat)
      requires Valid() && flight < |begun| && flight !in landed
      modifies this
      ensures Valid() && landed == old(landed) + {flight} && begun == old(begun)
      ensures current == old(current) - {begun[flight]}
    {
      var k := begun[flight];
      if k in current && current[k] == flight { current := current - {k}; }
      landed := landed + {flight};
    }
  }
}
