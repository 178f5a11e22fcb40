/**
 * The shared Ophanion types (ophanion-main/src/lib.rs): the spectrum of a
 * circuit, the circuit metadata, the circuit decision, the learning
 * threshold, and the Gabriel cell with its centroid and its weighted
 * connections to other cells.
 *
 * A Gabriel cell is owned by value by the vector of its cluster, so its
 * mutating operations are modelled as functions and methods that return
 * the updated cell.
 */
module OphanionCore {
  import opened Numerics

  /** Spectral fingerprint: frequency bins and their amplitudes. */
  datatype Spectrum = Spectrum(frequencies: seq<real>, amplitudes: seq<real>)

  /** `i` is the last index holding the greatest amplitude. */
  predicate IsLastMax(s: seq<real>, i: nat)
  {
    i < |s| && (forall k :: 0 <= k < |s| ==> s[k] <= s[i]) && (forall k :: i < k < |s| ==> s[k] < s[i])
  }

  /**
   * `dominant_frequency`: the frequency at the (last) greatest amplitude.
   * With no amplitudes the index defaults to 0, and an index past the
   * frequencies gives 0.0.
   */
  function DominantFrequency(s: Spectrum): (f: real)
    ensures 0 < |s.amplitudes| <= |s.frequencies| ==>
              exists i: nat :: IsLastMax(s.amplitudes, i) && f == s.frequencies[i]
    ensures 0 < |s.amplitudes| ==>
              exists i: nat :: IsLastMax(s.amplitudes, i) && f == (if i < |s.frequencies| then s.frequencies[i] else 0.0)
    ensures |s.amplitudes| == 0 ==> f == (if |s.frequencies| > 0 then s.frequencies[0] else 0.0)
    ensures |s.frequencies| == 0 ==> f == 0.0
  {
    var i := LastMaxIndex(s.amplitudes);
    assert |s.amplitudes| > 0 ==> IsLastMax(s.amplitudes, i);
    if i < |s.frequencies| then s.frequencies[i] else 0.0
  }

  /** The example spectrum of the source's own unit test peaks at 0.1. */
  lemma DominantFrequencyExample()
    ensures DominantFrequency(Spectrum([0.0, 0.1, 0.2, 0.3], [1.0, 5.0, 2.0, 1.5])) == 0.1
  {
    var a := [1.0, 5.0, 2.0, 1.5];
    var i := LastMaxIndex(a);
    assert a[1] == 5.0;
    assert a[i] >= a[1];
    assert i == 1;
  }

  /** `energy`: the sum of squared amplitudes. */
  function Energy(s: Spectrum): (e: real)
    ensures e >= 0.0
    ensures (forall k :: 0 <= k < |s.amplitudes| ==> s.amplitudes[k] == 0.0) ==> e == 0.0
  {
    SumSq(s.amplitudes)
  }

  datatype TorCellType = Introduce2 | Rendezvous1 | Rendezvous2 | Data | Padding | Other

  /**
   * Circuit metadata from the control port.  Cell timings are in seconds;
   * the creation instant is kept abstract as a time stamp in seconds.
   */
  datatype TorCircuitMetadata = TorCircuitMetadata(
    circuitId: nat,
    createdAt: real,
    cellTimings: seq<real>,
    cellTypes: seq<TorCellType>,
    introductionPoint: Option<string>,
    rendezvousCompleted: bool,
    totalBytes: nat)

  datatype CircuitAction = Forward | Absorb

  /** One threshold step: value - lambda * gradient, clamped into [0, 1]. */
  function ThresholdStep(value: real, lambda: real, gradient: real): (r: real)
    ensures 0.0 <= r <= 1.0
    ensures lambda >= 0.0 && 0.0 <= value <= 1.0 && gradient >= 0.0 ==> r <= value
    ensures lambda >= 0.0 && 0.0 <= value <= 1.0 && gradient <= 0.0 ==> r >= value
  {
    assert lambda >= 0.0 && gradient >= 0.0 ==> lambda * gradient >= 0.0 by {
      if lambda >= 0.0 && gradient >= 0.0 {
        MulNonneg(lambda, gradient);
      }
    }
    assert lambda >= 0.0 && gradient <= 0.0 ==> lambda * gradient <= 0.0 by {
      if lambda >= 0.0 && gradient <= 0.0 {
        MulNonneg(lambda, -gradient);
      }
    }
    Clamp(value - lambda * gradient, 0.0, 1.0)
  }

  /** The learning threshold: a value in [0, 1] and a non-negative rate. */
  class Threshold {
    var value: real
    var lambda: real

    ghost predicate Valid()
      reads this
    {
      0.0 <= value <= 1.0 && lambda >= 0.0
    }

    /** `Threshold::new` clamps the value into [0, 1] and the rate to at least 0. */
    constructor (initial: real, lambda: real)
      ensures Valid()
      ensures value == Clamp(initial, 0.0, 1.0) && this.lambda == Max(lambda, 0.0)
    {
      value := Clamp(initial, 0.0, 1.0);
      this.lambda := Max(lambda, 0.0);
    }

    /** `update`: one step against the gradient; the rate is unchanged. */
    method Update(gradient: real)
      requires Valid()
      modifies this
      ensures Valid()
      ensures value == ThresholdStep(old(value), lambda, gradient)
      ensures lambda == old(lambda)
    {
      value := value - lambda * gradient;
      value := Clamp(value, 0.0, 1.0);
    }
  }

  /** A weighted link to the cell with id `target`. */
  datatype Connection = Connection(target: nat, weight: real)

  /** A Gabriel cell: a learning unit with a centroid and weighted links to other cells. */
  datatype GabrielCell = GabrielCell(
    id: nat,
    centroid: seq<real>,
    covariance: real,
    resonanceStrength: real,
    connections: seq<Connection>)

  /** `GabrielCell::new`. */
  function NewCell(id: nat, dim: nat): (c: GabrielCell)
    ensures c.id == id && |c.centroid| == dim && forall k :: 0 <= k < dim ==> c.centroid[k] == 0.0
    ensures c.covariance == 1.0 && c.resonanceStrength == 0.0 && c.connections == []
  {
    GabrielCell(id, Zeros(dim), 1.0, 0.0, [])
  }

  /**
   * `distance_to`: the Euclidean distance of the centroid to a signature of
   * the same length (ndarray panics on a length mismatch).
   */
  function DistanceTo(c: GabrielCell, signature: seq<real>, sqrt: real -> real): (d: real)
    requires |c.centroid| == |signature| && IsSqrt(sqrt)
    ensures d >= 0.0
    ensures signature == c.centroid ==> d == 0.0
  {
    Distance(c.centroid, signature, sqrt)
  }

  /**
   * `update_centroid`: the element-wise blend (1 - alpha) c + alpha s; the
   * other fields are untouched.
   */
  function UpdateCentroid(c: GabrielCell, signature: seq<real>, alpha: real): (u: GabrielCell)
    requires |c.centroid| == |signature|
    ensures |u.centroid| == |c.centroid|
    ensures forall k :: 0 <= k < |signature| ==> u.centroid[k] == (1.0 - alpha) * c.centroid[k] + alpha * signature[k]
    ensures alpha == 0.0 ==> u == c
    ensures alpha == 1.0 ==> u.centroid == signature
    ensures u.id == c.id && u.covariance == c.covariance
    ensures u.resonanceStrength == c.resonanceStrength && u.connections == c.connections
  {
    c.(centroid := Blend(c.centroid, signature, alpha))
  }

  /** The ids a cell is connected to. */
  function ConnectionIds(conns: seq<Connection>): set<nat>
  {
    set k | 0 <= k < |conns| :: conns[k].target
  }

  /** No id occurs twice among the connections. */
  predicate UniqueIds(conns: seq<Connection>)
  {
    forall a, b :: 0 <= a < b < |conns| ==> conns[a].target != conns[b].target
  }

  /** `connections.iter_mut().find(|(id, _)| *id == other)`: the first entry with that id. */
  function FindConnection(conns: seq<Connection>, id: nat): (r: Option<nat>)
    ensures r.None? ==> forall k :: 0 <= k < |conns| ==> conns[k].target != id
    ensures r.Some? ==> r.value < |conns| && conns[r.value].target == id
                        && forall k :: 0 <= k < r.value ==> conns[k].target != id
  {
    if |conns| == 0 then None
    else if conns[0].target == id then Some(0)
    else
      match FindConnection(conns[1..], id)
      case None => None
      case Some(k) => Some(k + 1)
  }

  /** Blends an existing link as w (1 - beta) + deltaW, or appends (id, deltaW). */
  function Connect(conns: seq<Connection>, id: nat, deltaW: real, beta: real): seq<Connection>
  {
    match FindConnection(conns, id)
    case Some(k) => Reweight(conns, k, deltaW, beta)
    case None => conns + [Connection(id, deltaW)]
  }

  /** Entry k keeps its target and gets the weight w (1 - beta) + deltaW. */
  function Reweight(conns: seq<Connection>, k: nat, deltaW: real, beta: real): seq<Connection>
    requires k < |conns|
  {
    conns[k := conns[k].(weight := conns[k].weight * (1.0 - beta) + deltaW)]
  }

  /** The Hebbian increment alpha * s_c * s_other of a link. */
  function LinkDelta(alpha: real, c: GabrielCell, other: GabrielCell): real
  {
    alpha * c.resonanceStrength * other.resonanceStrength
  }

  /** One iteration of `update_connections`: cells with the cell's own id are skipped. */
  function ConnectStep(c: GabrielCell, other: GabrielCell, alpha: real, beta: real): GabrielCell
  {
    if other.id == c.id then c
    else c.(connections := Connect(c.connections, other.id, LinkDelta(alpha, c, other), beta))
  }

  /** A step against a different cell changes only the connections, by `Connect`. */
  lemma ConnectStepLinks(c: GabrielCell, other: GabrielCell, alpha: real, beta: real)
    requires other.id != c.id
    ensures ConnectStep(c, other, alpha, beta)
            == c.(connections := Connect(c.connections, other.id, LinkDelta(alpha, c, other), beta))
  {
  }

  /** `update_connections` over a slice of other cells, taken in order. */
  function ConnectAll(c: GabrielCell, others: seq<GabrielCell>, alpha: real, beta: real): (r: GabrielCell)
    ensures r.id == c.id && r.centroid == c.centroid && r.covariance == c.covariance
    ensures r.resonanceStrength == c.resonanceStrength
  {
    if |others| == 0 then c
    else ConnectStep(ConnectAll(c, others[..|others| - 1], alpha, beta), others[|others| - 1], alpha, beta)
  }

  /**
   * `update_connections`: the loop over the other cells.  Only the
   * connections change.
   */
  method UpdateConnections(c: GabrielCell, others: seq<GabrielCell>, alpha: real, beta: real) returns (u: GabrielCell)
    ensures u == ConnectAll(c, others, alpha, beta)
    ensures u.id == c.id && u.centroid == c.centroid && u.covariance == c.covariance
    ensures u.resonanceStrength == c.resonanceStrength
  {
    u := c;
    var k := 0;
    while k < |others|
      invariant 0 <= k <= |others|
      invariant u == ConnectAll(c, others[..k], alpha, beta)
      invariant u.id == c.id && u.centroid == c.centroid && u.covariance == c.covariance
      invariant u.resonanceStrength == c.resonanceStrength
    {
      assert others[..k + 1][..k] == others[..k];
      var other := others[k];
      ghost var before := u;
      if other.id != u.id {
        var deltaW := LinkDelta(alpha, u, other);
        match FindConnection(u.connections, other.id)
        case Some(i) =>
          u := u.(connections := Reweight(u.connections, i, deltaW, beta));
        case None =>
          u := u.(connections := u.connections + [Connection(other.id, deltaW)]);
        ConnectStepLinks(before, other, alpha, beta);
      }
      k := k + 1;
    }
    assert others[..|others|] == others;
  }

  /** One link update keeps ids unique and adds exactly the other cell's id. */
  lemma ConnectKeepsUnique(conns: seq<Connection>, id: nat, deltaW: real, beta: real)
    requires UniqueIds(conns)
    ensures UniqueIds(Connect(conns, id, deltaW, beta))
    ensures ConnectionIds(Connect(conns, id, deltaW, beta)) == ConnectionIds(conns) + {id}
  {
    var r := Connect(conns, id, deltaW, beta);
    match FindConnection(conns, id)
    case Some(k) =>
      assert forall a :: 0 <= a < |r| ==> r[a].target == conns[a].target;
      assert id in ConnectionIds(conns);
    case None =>
      assert r[|conns|].target == id;
      assert forall a :: 0 <= a < |conns| ==> r[a] == conns[a];
  }

  /** The ids of the other cells, except the cell's own. */
  function OtherIds(c: GabrielCell, others: seq<GabrielCell>): set<nat>
  {
    set k | 0 <= k < |others| && others[k].id != c.id :: others[k].id
  }

  /**
   * `update_connections` keeps connection ids unique, and the new ids are
   * exactly the old ones plus the ids of the other cells, never the cell's
   * own id.
   */
  lemma {:induction false} ConnectAllIds(c: GabrielCell, others: seq<GabrielCell>, alpha: real, beta: real)
    requires UniqueIds(c.connections)
    ensures UniqueIds(ConnectAll(c, others, alpha, beta).connections)
    ensures ConnectionIds(ConnectAll(c, others, alpha, beta).connections) == ConnectionIds(c.connections) + OtherIds(c, others)
    ensures ConnectAll(c, others, alpha, beta).id == c.id
    ensures ConnectAll(c, others, alpha, beta).resonanceStrength == c.resonanceStrength
    decreases |others|
  {
    if |others| > 0 {
      var pre := others[..|others| - 1];
      var last := others[|others| - 1];
      ConnectAllIds(c, pre, alpha, beta);
      var mid := ConnectAll(c, pre, alpha, beta);
      assert ConnectAll(c, others, alpha, beta) == ConnectStep(mid, last, alpha, beta);
      if last.id != mid.id {
        var deltaW := LinkDelta(alpha, mid, last);
        ConnectKeepsUnique(mid.connections, last.id, deltaW, beta);
        ConnectStepLinks(mid, last, alpha, beta);
      } else {
        assert ConnectAll(c, others, alpha, beta) == mid;
      }
      assert OtherIds(c, others) == OtherIds(c, pre) + (if last.id != c.id then {last.id} else {}) by {
        forall x | x in OtherIds(c, others)
          ensures x in OtherIds(c, pre) + (if last.id != c.id then {last.id} else {})
        {
          var k :| 0 <= k < |others| && others[k].id != c.id && others[k].id == x;
          if k < |pre| {
            assert pre[k] == others[k];
          }
        }
        forall x | x in OtherIds(c, pre)
          ensures x in OtherIds(c, others)
        {
          var k :| 0 <= k < |pre| && pre[k].id != c.id && pre[k].id == x;
          assert others[k] == pre[k];
        }
      }
    }
  }
}
