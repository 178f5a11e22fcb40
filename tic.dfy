/**
 * Temporal information crystals (QRADIANCE-main/src/mandorla/tic.rs):
 * immutable information blocks carrying a hash of their state, the
 * temporal crystal that collects them and caches a composite state, and
 * the living crystal that recomputes it until the blocks are coherent and
 * keeps string metadata.  `DefaultHasher` is the hash oracle `hash`.
 */
module TemporalCrystals {
  import opened Numerics

  datatype InformationBlock = InformationBlock(id: nat, state: QuantumState, timestamp: real, hash: nat)

  /** `verify_integrity`: the stored hash is the hash of the current state. */
  predicate VerifyIntegrity(b: InformationBlock, hash: QuantumState -> nat)
  {
    hash(b.state) == b.hash
  }

  /** `InformationBlock::new`: the hash is computed from the state, so a new block verifies. */
  function NewBlock(id: nat, state: QuantumState, timestamp: real, hash: QuantumState -> nat): (b: InformationBlock)
    ensures b.id == id && b.state == state && b.timestamp == timestamp
    ensures VerifyIntegrity(b, hash)
  {
    InformationBlock(id, state, timestamp, hash(state))
  }

  /** A block whose state is replaced by one of a different hash no longer verifies. */
  lemma TamperedBlockFails(b: InformationBlock, s: QuantumState, hash: QuantumState -> nat)
    requires VerifyIntegrity(b, hash) && hash(s) != hash(b.state)
    ensures !VerifyIntegrity(b.(state := s), hash)
  {
  }

  /** `similarity`: the fidelity of the two states, in [0, 1] and symmetric. */
  function Similarity(a: InformationBlock, b: InformationBlock, fid: (QuantumState, QuantumState) -> real): (r: real)
    ensures IsFidelity(fid) ==> 0.0 <= r <= 1.0 && r == fid(b.state, a.state)
    ensures IsFidelity(fid) && a.state == b.state ==> r == 1.0
  {
    fid(a.state, b.state)
  }

  /** Every block verifies: the condition `check_invariance` tests. */
  predicate AllVerify(bs: seq<InformationBlock>, hash: QuantumState -> nat)
  {
    forall i :: 0 <= i < |bs| ==> VerifyIntegrity(bs[i], hash)
  }

  /** Appending a block keeps every block verifying exactly when the new one verifies. */
  lemma AllVerifyAppend(bs: seq<InformationBlock>, b: InformationBlock, hash: QuantumState -> nat)
    ensures AllVerify(bs + [b], hash) <==> AllVerify(bs, hash) && VerifyIntegrity(b, hash)
  {
    if AllVerify(bs + [b], hash) {
      assert (bs + [b])[|bs|] == b;
      forall i | 0 <= i < |bs|
        ensures VerifyIntegrity(bs[i], hash)
      {
        assert (bs + [b])[i] == bs[i];
      }
    }
  }

  /**
   * The composite after the first `n` blocks of `compute_crystal_state`:
   * block 0's amplitudes, then for the block at index i >= 1, with weight
   * w = 1/(i + 1), the combination (1 - w) composite + w block.
   */
  function Composite(bs: seq<InformationBlock>, n: nat): Amplitudes
    requires 1 <= n <= |bs|
  {
    if n == 1 then bs[0].state.amplitudes
    else
      var w := 1.0 / n as real;
      VAdd(VScale(Composite(bs, n - 1), 1.0 - w), VScale(bs[n - 1].state.amplitudes, w))
  }

  function ZeroAmplitudes(): Amplitudes
  {
    seq(HILBERT_DIM, k => Complex(0.0, 0.0))
  }

  /** The component-wise sum of the amplitudes of the first `n` blocks. */
  function AmplitudeSum(bs: seq<InformationBlock>, n: nat): Amplitudes
    requires n <= |bs|
  {
    if n == 0 then ZeroAmplitudes() else VAdd(AmplitudeSum(bs, n - 1), bs[n - 1].state.amplitudes)
  }

  /** One step of a running mean: ((n-1)/n) (s/(n-1)) + a/n = (s + a)/n. */
  lemma MeanStep(s: real, a: real, n: real)
    requires n > 1.0
    ensures (1.0 - 1.0 / n) * ((1.0 / (n - 1.0)) * s) + (1.0 / n) * a == (1.0 / n) * (s + a)
  {
    assert 1.0 - 1.0 / n == (n - 1.0) / n;
    assert ((n - 1.0) / n) * (1.0 / (n - 1.0)) == 1.0 / n;
    calc {
      (1.0 - 1.0 / n) * ((1.0 / (n - 1.0)) * s);
      ((n - 1.0) / n) * (1.0 / (n - 1.0)) * s;
      (1.0 / n) * s;
    }
  }

  /**
   * The weights 1/(i + 1) make the composite the arithmetic mean of the
   * block amplitudes: every block counts equally, whatever its position.
   */
  lemma {:induction false} CompositeIsMean(bs: seq<InformationBlock>, n: nat)
    requires 1 <= n <= |bs|
    ensures Composite(bs, n) == VScale(AmplitudeSum(bs, n), 1.0 / n as real)
  {
    var c := Composite(bs, n);
    var m := VScale(AmplitudeSum(bs, n), 1.0 / n as real);
    if n == 1 {
      assert AmplitudeSum(bs, 1) == VAdd(ZeroAmplitudes(), bs[0].state.amplitudes);
      forall k | 0 <= k < HILBERT_DIM
        ensures c[k] == m[k]
      {
        VScaleAt(AmplitudeSum(bs, 1), 1.0, k);
      }
    } else {
      CompositeIsMean(bs, n - 1);
      var s := AmplitudeSum(bs, n - 1);
      var a := bs[n - 1].state.amplitudes;
      assert c == VAdd(VScale(Composite(bs, n - 1), 1.0 - 1.0 / n as real), VScale(a, 1.0 / n as real));
      assert m == VScale(VAdd(s, a), 1.0 / n as real);
      forall k | 0 <= k < HILBERT_DIM
        ensures c[k] == m[k]
      {
        MeanStepAt(Composite(bs, n - 1), s, a, n, k);
      }
    }
    assert c == m;
  }

  /** Component k of one composite step, when the earlier composite is the mean of n - 1 blocks. */
  lemma MeanStepAt(prev: Amplitudes, s: Amplitudes, a: Amplitudes, n: nat, k: nat)
    requires n >= 2 && k < HILBERT_DIM
    requires prev == VScale(s, 1.0 / (n - 1) as real)
    ensures VAdd(VScale(prev, 1.0 - 1.0 / n as real), VScale(a, 1.0 / n as real))[k]
            == VScale(VAdd(s, a), 1.0 / n as real)[k]
  {
    var w := 1.0 / n as real;
    QuotientCongruent(1.0, 1.0, (n - 1) as real, n as real - 1.0);
    VScaleAt(s, 1.0 / (n - 1) as real, k);
    VScaleAt(prev, 1.0 - w, k);
    VScaleAt(a, w, k);
    VScaleAt(VAdd(s, a), w, k);
    var blended := VAdd(VScale(prev, 1.0 - w), VScale(a, w));
    assert blended[k] == CAdd(VScale(prev, 1.0 - w)[k], VScale(a, w)[k]);
    MeanStep(s[k].re, a[k].re, n as real);
    MeanStep(s[k].im, a[k].im, n as real);
  }

  /** Blocks that all carry the same amplitudes compose to those amplitudes. */
  lemma {:induction false} CompositeOfIdenticalBlocks(bs: seq<InformationBlock>, n: nat, a: Amplitudes)
    requires 1 <= n <= |bs|
    requires forall i :: 0 <= i < |bs| ==> bs[i].state.amplitudes == a
    ensures Composite(bs, n) == a
  {
    if n > 1 {
      CompositeOfIdenticalBlocks(bs, n - 1, a);
      assert bs[n - 1].state.amplitudes == a;
      BlendOfSame(a, 1.0 / n as real);
    }
  }

  /** Blending a vector with itself, for any weight, gives the vector back. */
  lemma BlendOfSame(a: Amplitudes, w: real)
    ensures VAdd(VScale(a, 1.0 - w), VScale(a, w)) == a
  {
    var c := VAdd(VScale(a, 1.0 - w), VScale(a, w));
    forall k | 0 <= k < HILBERT_DIM
      ensures c[k] == a[k]
    {
      VScaleAt(a, 1.0 - w, k);
      VScaleAt(a, w, k);
      BlendOfSameScalar(a[k].re, w);
      BlendOfSameScalar(a[k].im, w);
    }
  }

  lemma BlendOfSameScalar(x: real, w: real)
    ensures (1.0 - w) * x + w * x == x
  {
  }

  lemma VScaleAt(v: Amplitudes, r: real, k: nat)
    requires k < HILBERT_DIM
    ensures VScale(v, r)[k] == Complex(r * v[k].re, r * v[k].im)
  {
  }

  /** The similarity of block i with blocks i+1 .. j-1. */
  function RowSum(bs: seq<InformationBlock>, i: nat, j: nat, fid: (QuantumState, QuantumState) -> real): real
    requires i < |bs| && i + 1 <= j <= |bs|
    decreases j
  {
    if j == i + 1 then 0.0 else RowSum(bs, i, j - 1, fid) + Similarity(bs[i], bs[j - 1], fid)
  }

  /** The similarity summed over the pairs (i, j), i < j, whose first block is among the first `i`. */
  function PairSum(bs: seq<InformationBlock>, i: nat, fid: (QuantumState, QuantumState) -> real): real
    requires i <= |bs|
  {
    if i == 0 then 0.0 else PairSum(bs, i - 1, fid) + RowSum(bs, i - 1, |bs|, fid)
  }

  /** The number of pairs (i', j), i' < j < n, with i' < i. */
  function PairsBefore(n: nat, i: nat): nat
    requires i <= n
  {
    if i == 0 then 0 else PairsBefore(n, i - 1) + (n - i)
  }

  /** Counting the pairs row by row gives i (2n - i - 1) / 2, so n (n - 1) / 2 in all. */
  lemma {:induction false} PairsBeforeClosedForm(n: nat, i: nat)
    requires i <= n
    ensures 2 * PairsBefore(n, i) == i * (2 * n - i - 1)
  {
    if i > 0 {
      PairsBeforeClosedForm(n, i - 1);
      assert (i - 1) * (2 * n - (i - 1) - 1) + 2 * (n - i) == i * (2 * n - i - 1);
    }
  }

  /**
   * `coherence`: 1 for fewer than two blocks, otherwise the mean
   * similarity over the n (n - 1) / 2 pairs i < j.
   */
  function CoherenceOf(bs: seq<InformationBlock>, fid: (QuantumState, QuantumState) -> real): real
  {
    if |bs| < 2 then 1.0
    else PairSum(bs, |bs|, fid) / (|bs| as real * (|bs| as real - 1.0) / 2.0)
  }

  lemma {:induction false} RowSumBounds(bs: seq<InformationBlock>, i: nat, j: nat, fid: (QuantumState, QuantumState) -> real)
    requires IsFidelity(fid)
    requires i < |bs| && i + 1 <= j <= |bs|
    ensures 0.0 <= RowSum(bs, i, j, fid) <= (j - i - 1) as real
    ensures (forall k :: 0 <= k < |bs| ==> bs[k].state == bs[0].state) ==> RowSum(bs, i, j, fid) == (j - i - 1) as real
    decreases j
  {
    if j > i + 1 {
      RowSumBounds(bs, i, j - 1, fid);
    }
  }

  lemma {:induction false} PairSumBounds(bs: seq<InformationBlock>, i: nat, fid: (QuantumState, QuantumState) -> real)
    requires IsFidelity(fid)
    requires i <= |bs|
    ensures 0.0 <= PairSum(bs, i, fid) <= PairsBefore(|bs|, i) as real
    ensures (forall k :: 0 <= k < |bs| ==> bs[k].state == bs[0].state) ==> PairSum(bs, i, fid) == PairsBefore(|bs|, i) as real
  {
    if i > 0 {
      PairSumBounds(bs, i - 1, fid);
      RowSumBounds(bs, i - 1, |bs|, fid);
    }
  }

  /**
   * With a fidelity in [0, 1] the coherence lies in [0, 1], and blocks that
   * all hold the same state have coherence exactly 1.
   */
  lemma CoherenceBounds(bs: seq<InformationBlock>, fid: (QuantumState, QuantumState) -> real)
    requires IsFidelity(fid)
    ensures 0.0 <= CoherenceOf(bs, fid) <= 1.0
    ensures (forall k :: 0 <= k < |bs| ==> bs[k].state == bs[0].state) ==> CoherenceOf(bs, fid) == 1.0
  {
    if |bs| >= 2 {
      var p := |bs| as real * (|bs| as real - 1.0) / 2.0;
      PairSumBounds(bs, |bs|, fid);
      PairCount(|bs|);
      CoherenceIsMean(bs, fid, PairSum(bs, |bs|, fid), PairsBefore(|bs|, |bs|) as real, p);
    }
  }

  /** With at least two blocks the coherence is the summed similarity over the pair count. */
  lemma CoherenceIsMean(bs: seq<InformationBlock>, fid: (QuantumState, QuantumState) -> real, s: real, count: real, p: real)
    requires |bs| >= 2 && s == PairSum(bs, |bs|, fid)
    requires p == |bs| as real * (|bs| as real - 1.0) / 2.0 && count == p && p > 0.0
    requires 0.0 <= s <= count
    ensures CoherenceOf(bs, fid) == s / p
    ensures 0.0 <= CoherenceOf(bs, fid) <= 1.0
    ensures s == count ==> CoherenceOf(bs, fid) == 1.0
  {
    DivideBounded(s, p);
  }

  /** There are n (n - 1) / 2 pairs, a positive number once there are two blocks. */
  lemma PairCount(n: nat)
    requires n >= 2
    ensures PairsBefore(n, n) as real == n as real * (n as real - 1.0) / 2.0
    ensures n as real * (n as real - 1.0) / 2.0 > 0.0
  {
    PairsBeforeClosedForm(n, n);
    var p := PairsBefore(n, n);
    assert 2 * p == n * (n - 1);
    assert (2 * p) as real == 2.0 * p as real;
    assert (n * (n - 1)) as real == n as real * (n - 1) as real;
    MulPos(n as real, n as real - 1.0);
  }

  lemma DivideBounded(s: real, p: real)
    requires p > 0.0 && 0.0 <= s <= p
    ensures 0.0 <= s / p <= 1.0
    ensures s == p ==> s / p == 1.0
  {
  }

  /** The totals of the double loop give the coherence, their count being positive. */
  lemma CoherenceFromTotals(bs: seq<InformationBlock>, fid: (QuantumState, QuantumState) -> real, total: real, count: nat)
    requires |bs| >= 2 && total == PairSum(bs, |bs|, fid) && count == PairsBefore(|bs|, |bs|)
    ensures count > 0 && CoherenceOf(bs, fid) == total / count as real
  {
    var n := |bs|;
    var p := n as real * (n as real - 1.0) / 2.0;
    PairCount(n);
    assert count as real == p && p > 0.0;
    CoherenceUnfolds(bs, fid);
    QuotientCongruent(PairSum(bs, n, fid), total, p, count as real);
  }

  lemma CoherenceUnfolds(bs: seq<InformationBlock>, fid: (QuantumState, QuantumState) -> real)
    requires |bs| >= 2
    ensures CoherenceOf(bs, fid) == PairSum(bs, |bs|, fid) / (|bs| as real * (|bs| as real - 1.0) / 2.0)
  {
  }

  /** The double loop of `coherence`: the summed similarity and the number of pairs i < j. */
  method PairTotals(bs: seq<InformationBlock>, fid: (QuantumState, QuantumState) -> real) returns (total: real, count: nat)
    ensures total == PairSum(bs, |bs|, fid) && count == PairsBefore(|bs|, |bs|)
  {
    total, count := 0.0, 0;
    var i := 0;
    while i < |bs|
      invariant 0 <= i <= |bs|
      invariant total == PairSum(bs, i, fid)
      invariant count == PairsBefore(|bs|, i)
    {
      var row, rowCount := RowTotals(bs, i, fid);
      total, count := total + row, count + rowCount;
      i := i + 1;
    }
  }

  /** The inner loop of `coherence`: the similarities of block i to every later block, and how many there are. */
  method RowTotals(bs: seq<InformationBlock>, i: nat, fid: (QuantumState, QuantumState) -> real) returns (total: real, count: nat)
    requires i < |bs|
    ensures total == RowSum(bs, i, |bs|, fid) && count == |bs| - i - 1
  {
    total, count := 0.0, 0;
    var j := i + 1;
    while j < |bs|
      invariant i + 1 <= j <= |bs|
      invariant total == RowSum(bs, i, j, fid)
      invariant count == j - i - 1
    {
      total := total + Similarity(bs[i], bs[j], fid);
      count := count + 1;
      j := j + 1;
    }
  }

  /** Whether a block lies within `tolerance` of `time`. */
  predicate Near(b: InformationBlock, time: real, tolerance: real)
  {
    Abs(b.timestamp - time) < tolerance
  }

  /** The index of the first block near `time`, if any. */
  function FirstNear(bs: seq<InformationBlock>, time: real, tolerance: real): (r: Option<nat>)
    ensures r.None? <==> forall i :: 0 <= i < |bs| ==> !Near(bs[i], time, tolerance)
    ensures r.Some? ==> r.value < |bs| && Near(bs[r.value], time, tolerance)
                        && forall j :: 0 <= j < r.value ==> !Near(bs[j], time, tolerance)
  {
    if |bs| == 0 then None
    else if Near(bs[0], time, tolerance) then Some(0)
    else
      match FirstNear(bs[1..], time, tolerance)
      case None => None
      case Some(k) => Some(k + 1)
  }

  /** Whether a block's timestamp lies in [t1, t2]. */
  predicate InWindow(b: InformationBlock, t1: real, t2: real)
  {
    t1 <= b.timestamp <= t2
  }

  /** The blocks in [t1, t2], in the order they were added. */
  function Window(bs: seq<InformationBlock>, t1: real, t2: real): (r: seq<InformationBlock>)
    ensures |r| <= |bs|
  {
    if |bs| == 0 then []
    else Window(bs[..|bs| - 1], t1, t2) + (if InWindow(bs[|bs| - 1], t1, t2) then [bs[|bs| - 1]] else [])
  }

  /** The window holds exactly the blocks stamped within [t1, t2]. */
  lemma {:induction false} WindowMembers(bs: seq<InformationBlock>, t1: real, t2: real)
    ensures forall b :: b in Window(bs, t1, t2) <==> b in bs && InWindow(b, t1, t2)
    decreases |bs|
  {
    if |bs| > 0 {
      var front := bs[..|bs| - 1];
      var last := bs[|bs| - 1];
      WindowMembers(front, t1, t2);
      assert bs == front + [last];
    }
  }

  /** Filtering distributes over concatenation, so the window keeps the insertion order. */
  lemma {:induction false} WindowAppend(a: seq<InformationBlock>, b: seq<InformationBlock>, t1: real, t2: real)
    ensures Window(a + b, t1, t2) == Window(a, t1, t2) + Window(b, t1, t2)
    decreases |b|
  {
    if |b| == 0 {
      assert a + b == a;
    } else {
      var front := b[..|b| - 1];
      var last := b[|b| - 1];
      assert (a + b)[..|a + b| - 1] == a + front;
      assert (a + b)[|a + b| - 1] == last;
      WindowAppend(a, front, t1, t2);
    }
  }

  lemma {:induction false} WindowAllOutside(bs: seq<InformationBlock>, t1: real, t2: real)
    requires forall i :: 0 <= i < |bs| ==> !InWindow(bs[i], t1, t2)
    ensures Window(bs, t1, t2) == []
  {
    if |bs| > 0 {
      WindowAllOutside(bs[..|bs| - 1], t1, t2);
    }
  }

  lemma {:induction false} WindowAllInside(bs: seq<InformationBlock>, t1: real, t2: real)
    requires forall i :: 0 <= i < |bs| ==> InWindow(bs[i], t1, t2)
    ensures Window(bs, t1, t2) == bs
  {
    if |bs| > 0 {
      WindowAllInside(bs[..|bs| - 1], t1, t2);
      assert bs == bs[..|bs| - 1] + [bs[|bs| - 1]];
    }
  }

  /**
   * On a timeline whose block i was stamped at time i, the window
   * [lo, hi] for whole numbers lo <= hi < n is the run of blocks lo .. hi;
   * ten blocks and the window [2, 5] give the four blocks at 2, 3, 4, 5.
   */
  lemma TimelineWindow(bs: seq<InformationBlock>, lo: nat, hi: nat)
    requires forall i :: 0 <= i < |bs| ==> bs[i].timestamp == i as real
    requires lo <= hi < |bs|
    ensures Window(bs, lo as real, hi as real) == bs[lo..hi + 1]
    ensures |Window(bs, lo as real, hi as real)| == hi - lo + 1
  {
    var t1, t2 := lo as real, hi as real;
    var before, inside, after := bs[..lo], bs[lo..hi + 1], bs[hi + 1..];
    assert bs == before + inside + after;
    WindowAppend(before + inside, after, t1, t2);
    WindowAppend(before, inside, t1, t2);
    TimelineOutside(bs, lo, hi);
    TimelineInside(bs, lo, hi);
  }

  /** On such a timeline the blocks before lo and after hi fall outside [lo, hi]. */
  lemma TimelineOutside(bs: seq<InformationBlock>, lo: nat, hi: nat)
    requires forall i :: 0 <= i < |bs| ==> bs[i].timestamp == i as real
    requires lo <= hi < |bs|
    ensures Window(bs[..lo], lo as real, hi as real) == []
    ensures Window(bs[hi + 1..], lo as real, hi as real) == []
  {
    var before, after := bs[..lo], bs[hi + 1..];
    forall i | 0 <= i < |before|
      ensures !InWindow(before[i], lo as real, hi as real)
    {
      assert before[i] == bs[i];
    }
    WindowAllOutside(before, lo as real, hi as real);
    forall i | 0 <= i < |after|
      ensures !InWindow(after[i], lo as real, hi as real)
    {
      assert after[i] == bs[hi + 1 + i];
    }
    WindowAllOutside(after, lo as real, hi as real);
  }

  /** On such a timeline the blocks lo .. hi all fall inside [lo, hi]. */
  lemma TimelineInside(bs: seq<InformationBlock>, lo: nat, hi: nat)
    requires forall i :: 0 <= i < |bs| ==> bs[i].timestamp == i as real
    requires lo <= hi < |bs|
    ensures Window(bs[lo..hi + 1], lo as real, hi as real) == bs[lo..hi + 1]
  {
    var inside := bs[lo..hi + 1];
    forall i | 0 <= i < |inside|
      ensures InWindow(inside[i], lo as real, hi as real)
    {
      assert inside[i] == bs[lo + i];
    }
    WindowAllInside(inside, lo as real, hi as real);
  }

  class TemporalCrystal {
    var blocks: seq<InformationBlock>
    var crystalState: Option<QuantumState>
    const qops: QuantumOps

    /** `new` and `Default`: no blocks and no cached state. */
    constructor (qops: QuantumOps)
      ensures blocks == [] && crystalState == None && this.qops == qops
    {
      blocks := [];
      crystalState := None;
      this.qops := qops;
    }

    /** `add_block`: the block goes at the end and the cached state is dropped. */
    method AddBlock(b: InformationBlock)
      modifies this
      ensures blocks == old(blocks) + [b]
      ensures crystalState == None
    {
      blocks := blocks + [b];
      crystalState := None;
    }

    /**
     * `compute_crystal_state`: with no blocks, the default state |0>,
     * leaving the cache alone; otherwise the normalised composite of all
     * blocks, which is also cached.
     */
    method ComputeCrystalState() returns (s: QuantumState)
      modifies this
      ensures blocks == old(blocks)
      ensures blocks == [] ==> s == BasisZero() && crystalState == old(crystalState)
      ensures blocks != [] ==> s == qops.normalize(Composite(blocks, |blocks|)) && crystalState == Some(s)
    {
      if |blocks| == 0 {
        return BasisZero();
      }
      var composite := blocks[0].state.amplitudes;
      var i := 1;
      while i < |blocks|
        invariant 1 <= i <= |blocks|
        invariant composite == Composite(blocks, i)
      {
        var weight := 1.0 / (i + 1) as real;
        composite := VAdd(VScale(composite, 1.0 - weight), VScale(blocks[i].state.amplitudes, weight));
        i := i + 1;
      }
      s := qops.normalize(composite);
      crystalState := Some(s);
    }

    /** `check_invariance`: every block verifies. */
    predicate CheckInvariance(hash: QuantumState -> nat)
      reads this
    {
      AllVerify(blocks, hash)
    }

    /** Adding a block that verifies, such as a new one, keeps the crystal invariant. */
    method AddVerifiedBlock(b: InformationBlock, hash: QuantumState -> nat)
      modifies this
      requires CheckInvariance(hash) && VerifyIntegrity(b, hash)
      ensures blocks == old(blocks) + [b] && crystalState == None
      ensures CheckInvariance(hash)
    {
      AllVerifyAppend(blocks, b, hash);
      AddBlock(b);
    }

    /**
     * `coherence`, with the source's double loop over the pairs i < j; its
     * result is `CoherenceOf`, which `CoherenceBounds` characterises.
     */
    method Coherence() returns (c: real)
      ensures c == CoherenceOf(blocks, qops.fidelity)
    {
      var n := |blocks|;
      if n < 2 {
        return 1.0;
      }
      var total, count := PairTotals(blocks, qops.fidelity);
      // With two or more blocks the pair count is positive, so the source's
      // fallback for a zero count is never taken.
      CoherenceFromTotals(blocks, qops.fidelity, total, count);
      c := total / count as real;
    }

    /** `find_block_at_time`: the first block within `tolerance` of `time`, if there is one. */
    function FindBlockAtTime(time: real, tolerance: real): (r: Option<InformationBlock>)
      reads this
      ensures r.None? <==> forall i :: 0 <= i < |blocks| ==> !Near(blocks[i], time, tolerance)
      ensures r.Some? ==> exists i :: 0 <= i < |blocks| && blocks[i] == r.value && Near(blocks[i], time, tolerance)
                                      && forall j :: 0 <= j < i ==> !Near(blocks[j], time, tolerance)
    {
      match FirstNear(blocks, time, tolerance)
      case None => None
      case Some(i) => Some(blocks[i])
    }

    /** `extract_time_window`: the blocks stamped within [t1, t2], in insertion order. */
    function ExtractTimeWindow(t1: real, t2: real): (r: seq<InformationBlock>)
      reads this
      ensures forall b :: b in r <==> b in blocks && InWindow(b, t1, t2)
      ensures |r| <= |blocks|
    {
      WindowMembers(blocks, t1, t2);
      Window(blocks, t1, t2)
    }
  }

  /** The lookup of `HashMap::get`. */
  function Lookup(m: map<string, string>, key: string): (r: Option<string>)
    ensures r.Some? <==> key in m
    ensures r.Some? ==> r.value == m[key]
  {
    if key in m then Some(m[key]) else None
  }

  /** A stored value is found under its key, a later one replaces it, and other keys are unaffected. */
  lemma MetadataLaws(m: map<string, string>, key: string, other: string, v: string, w: string)
    ensures Lookup(m[key := v], key) == Some(v)
    ensures Lookup(m[key := v][key := w], key) == Some(w)
    ensures other != key ==> Lookup(m[key := v], other) == Lookup(m, other)
  {
  }

  /**
   * The number of recomputations `converge` performs: none without blocks;
   * otherwise one if the blocks are already more than 0.99 coherent (the
   * blocks do not change while it runs) and `maxIterations` if not.
   */
  function ConvergeSteps(bs: seq<InformationBlock>, maxIterations: nat, fid: (QuantumState, QuantumState) -> real): (k: nat)
    ensures bs == [] ==> k == 0
    ensures bs != [] && maxIterations >= 1 ==> 1 <= k <= maxIterations
    ensures k <= maxIterations
  {
    if bs == [] then 0
    else if CoherenceOf(bs, fid) > 0.99 then (if maxIterations == 0 then 0 else 1)
    else maxIterations
  }

  /** Identical blocks are coherent, so `converge` on them stops after one step. */
  lemma IdenticalBlocksConvergeAtOnce(bs: seq<InformationBlock>, maxIterations: nat, fid: (QuantumState, QuantumState) -> real)
    requires IsFidelity(fid) && bs != [] && maxIterations >= 1
    requires forall k :: 0 <= k < |bs| ==> bs[k].state == bs[0].state
    ensures ConvergeSteps(bs, maxIterations, fid) == 1
  {
    CoherenceBounds(bs, fid);
  }

  class LivingCrystal {
    const temporalCrystal: TemporalCrystal
    var convergenceLevel: nat
    var metadata: map<string, string>

    /** `new` and `Default`: an empty temporal crystal, level 0, no metadata. */
    constructor (qops: QuantumOps)
      ensures fresh(temporalCrystal)
      ensures temporalCrystal.blocks == [] && temporalCrystal.crystalState == None && temporalCrystal.qops == qops
      ensures convergenceLevel == 0 && metadata == map[]
    {
      temporalCrystal := new TemporalCrystal(qops);
      convergenceLevel := 0;
      metadata := map[];
    }

    /**
     * `converge`: up to `maxIterations` times, stop if there are no
     * blocks, recompute the crystal state, raise the level by one and stop
     * once the coherence exceeds 0.99.
     */
    method Converge(maxIterations: nat)
      modifies this, temporalCrystal
      ensures temporalCrystal.blocks == old(temporalCrystal.blocks) && metadata == old(metadata)
      ensures convergenceLevel == old(convergenceLevel)
                                  + ConvergeSteps(temporalCrystal.blocks, maxIterations, temporalCrystal.qops.fidelity)
      ensures temporalCrystal.blocks != [] && maxIterations >= 1 ==>
                temporalCrystal.crystalState
                == Some(temporalCrystal.qops.normalize(Composite(temporalCrystal.blocks, |temporalCrystal.blocks|)))
      ensures temporalCrystal.blocks == [] || maxIterations == 0 ==>
                temporalCrystal.crystalState == old(temporalCrystal.crystalState)
    {
      var it := 0;
      while it < maxIterations
        invariant 0 <= it <= maxIterations
        invariant temporalCrystal.blocks == old(temporalCrystal.blocks) && metadata == old(metadata)
        invariant temporalCrystal.blocks == [] ==> it == 0
        invariant convergenceLevel == old(convergenceLevel) + it
        invariant it == 0 ==> temporalCrystal.crystalState == old(temporalCrystal.crystalState)
        invariant it > 0 ==> temporalCrystal.crystalState
                             == Some(temporalCrystal.qops.normalize(Composite(temporalCrystal.blocks, |temporalCrystal.blocks|)))
        invariant it > 0 ==> CoherenceOf(temporalCrystal.blocks, temporalCrystal.qops.fidelity) <= 0.99
      {
        if |temporalCrystal.blocks| == 0 {
          break;
        }
        var _ := temporalCrystal.ComputeCrystalState();
        convergenceLevel := convergenceLevel + 1;
        it := it + 1;
        var c := temporalCrystal.Coherence();
        if c > 0.99 {
          break;
        }
      }
    }

    /** `verify_mandorla_condition`: the temporal crystal's invariance check. */
    predicate VerifyMandorlaCondition(hash: QuantumState -> nat)
      reads this, temporalCrystal
    {
      temporalCrystal.CheckInvariance(hash)
    }

    /** `set_metadata`: inserts or overwrites the key. */
    method SetMetadata(key: string, value: string)
      modifies this
      ensures metadata == old(metadata)[key := value]
      ensures convergenceLevel == old(convergenceLevel)
    {
      metadata := metadata[key := value];
    }

    /** `get_metadata`: the value stored under the key, if any. */
    function GetMetadata(key: string): (r: Option<string>)
      reads this
      ensures r.Some? <==> key in metadata
      ensures r.Some? ==> r.value == metadata[key]
    {
      Lookup(metadata, key)
    }
  }
}
