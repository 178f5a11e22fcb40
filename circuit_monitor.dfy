/**
 * The circuit monitor of Ophanion (ophanion-main/src/circuit_monitor.rs):
 * a map from circuit id to circuit metadata with a capacity.  When the map
 * is full, tracking a circuit first removes one entry, the one the map's
 * iterator happens to yield first, and then inserts the new circuit.
 */
module CircuitMonitors {
  import opened Numerics
  import opened OphanionCore

  /**
   * The map after one `track_circuit` with the given eviction victim: when
   * the map is at or over capacity the victim (if there is one) is removed,
   * then the circuit is inserted under its id, overwriting any entry there.
   */
  function Track(m: map<nat, TorCircuitMetadata>, maxCircuits: nat, victim: Option<nat>, c: TorCircuitMetadata): (r: map<nat, TorCircuitMetadata>)
    requires victim.Some? ==> victim.value in m
    ensures c.circuitId in r && r[c.circuitId] == c
    ensures forall id :: id in r && id != c.circuitId ==> id in m && r[id] == m[id]
  {
    var pruned := if |m| >= maxCircuits && victim.Some? then m - {victim.value} else m;
    pruned[c.circuitId := c]
  }

  /** The victim rule: some entry when the map is full and non-empty, none otherwise. */
  predicate ValidVictim(m: map<nat, TorCircuitMetadata>, maxCircuits: nat, victim: Option<nat>)
  {
    if |m| >= maxCircuits && |m| > 0 then victim.Some? && victim.value in m else victim.None?
  }

  /** Every entry is stored under its own circuit id. */
  predicate KeyedById(m: map<nat, TorCircuitMetadata>)
  {
    forall id :: id in m ==> m[id].circuitId == id
  }

  /** Tracking keeps every entry under its own id, and the tracked circuit is then found. */
  lemma TrackKeepsKeys(m: map<nat, TorCircuitMetadata>, maxCircuits: nat, victim: Option<nat>, c: TorCircuitMetadata)
    requires KeyedById(m) && (victim.Some? ==> victim.value in m)
    ensures KeyedById(Track(m, maxCircuits, victim, c))
  {
  }

  /** Removing an id keeps every other entry and the keying. */
  lemma RemoveKeepsOthers(m: map<nat, TorCircuitMetadata>, id: nat)
    requires KeyedById(m)
    ensures KeyedById(m - {id}) && id !in m - {id}
    ensures forall x :: x in m && x != id ==> x in m - {id} && (m - {id})[x] == m[x]
  {
  }

  /** Inserting under a key adds at most one entry. */
  lemma InsertSize(m: map<nat, TorCircuitMetadata>, c: TorCircuitMetadata)
    ensures |m[c.circuitId := c]| <= |m| + 1
  {
    assert m[c.circuitId := c].Keys == m.Keys + {c.circuitId};
  }

  /** Removing a present key drops exactly one entry. */
  lemma RemoveSize(m: map<nat, TorCircuitMetadata>, id: nat)
    requires id in m
    ensures |m - {id}| == |m| - 1
  {
    assert (m - {id}).Keys == m.Keys - {id};
  }

  /** With a capacity of at least one, tracking never takes the map over capacity. */
  lemma TrackStaysWithinCapacity(m: map<nat, TorCircuitMetadata>, maxCircuits: nat, victim: Option<nat>, c: TorCircuitMetadata)
    requires maxCircuits >= 1 && |m| <= maxCircuits && ValidVictim(m, maxCircuits, victim)
    ensures |Track(m, maxCircuits, victim, c)| <= maxCircuits
  {
    if |m| >= maxCircuits {
      RemoveSize(m, victim.value);
      InsertSize(m - {victim.value}, c);
    } else {
      InsertSize(m, c);
    }
  }

  /** Below capacity nothing is evicted: every other circuit is still there, unchanged. */
  lemma TrackBelowCapacityKeepsOthers(m: map<nat, TorCircuitMetadata>, maxCircuits: nat, c: TorCircuitMetadata)
    requires |m| < maxCircuits
    ensures forall id :: id in m && id != c.circuitId ==> id in Track(m, maxCircuits, None, c) && Track(m, maxCircuits, None, c)[id] == m[id]
  {
  }

  /**
   * The victim is whatever entry comes first, not the circuit being
   * re-tracked: at capacity 2, re-tracking circuit 1 in a map holding
   * circuits 1 and 2 may evict circuit 2, leaving a single entry.
   */
  lemma RetrackAtCapacityCanShrink(a: TorCircuitMetadata, b: TorCircuitMetadata)
    requires a.circuitId == 1 && b.circuitId == 2
    ensures var m := map[1 := a, 2 := b];
            ValidVictim(m, 2, Some(2)) && |m| == 2 && |Track(m, 2, Some(2), a)| == 1
  {
    var m := map[1 := a, 2 := b];
    assert m.Keys == {1, 2};
    assert (m - {2}).Keys == {1};
    assert Track(m, 2, Some(2), a) == map[1 := a];
  }

  class CircuitMonitor {
    var circuits: map<nat, TorCircuitMetadata>
    const maxCircuits: nat

    /** `new`: an empty map with the given capacity. */
    constructor (maxCircuits: nat)
      ensures circuits == map[] && this.maxCircuits == maxCircuits
    {
      circuits := map[];
      this.maxCircuits := maxCircuits;
    }

    /**
     * `track_circuit`: at capacity, removes one arbitrary entry (reported
     * as `evicted`), then inserts the circuit under its id.
     */
    method TrackCircuit(circuit: TorCircuitMetadata) returns (evicted: Option<nat>)
      modifies this
      ensures ValidVictim(old(circuits), maxCircuits, evicted)
      ensures circuits == Track(old(circuits), maxCircuits, evicted, circuit)
    {
      evicted := None;
      if |circuits| >= maxCircuits && |circuits| > 0 {
        var id :| id in circuits;
        evicted := Some(id);
        circuits := circuits - {id};
      }
      circuits := circuits[circuit.circuitId := circuit];
    }

    /** `get_circuit`: the entry under the id, if any. */
    function GetCircuit(circuitId: nat): (r: Option<TorCircuitMetadata>)
      reads this
      ensures r.Some? <==> circuitId in circuits
      ensures r.Some? ==> r.value == circuits[circuitId]
      ensures KeyedById(circuits) && r.Some? ==> r.value.circuitId == circuitId
    {
      if circuitId in circuits then Some(circuits[circuitId]) else None
    }

    /** `remove_circuit`: deletes that id only; a missing id changes nothing. */
    method RemoveCircuit(circuitId: nat)
      modifies this
      ensures circuits == old(circuits) - {circuitId}
      ensures circuitId !in old(circuits) ==> circuits == old(circuits)
    {
      circuits := circuits - {circuitId};
    }

    /** `circuit_count`: the number of entries. */
    function CircuitCount(): (n: nat)
      reads this
      ensures n == |circuits.Keys|
    {
      |circuits|
    }
  }
}
