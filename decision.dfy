/**
 * The Ophanion decision engine (ophanion-main/src/decision.rs): it
 * forwards a circuit whose resonance score is strictly above the threshold
 * and absorbs every other one, counting both outcomes.
 */
module Decision {
  import opened OphanionCore

  /** The decision rule: forward exactly when the score is strictly above the threshold. */
  function Action(score: real, threshold: real): (a: CircuitAction)
    ensures a == Forward <==> score > threshold
    ensures a == Absorb <==> score <= threshold
  {
    if score > threshold then Forward else Absorb
  }

  /** A score equal to the threshold is absorbed, and the source's own two examples. */
  lemma TieIsAbsorbed(t: real)
    ensures Action(t, t) == Absorb
    ensures Action(0.8, 0.5) == Forward && Action(0.3, 0.5) == Absorb
  {
  }

  /** absorbed / decisions, or 0 before the first decision. */
  function Rate(absorbed: nat, decisions: nat): (r: real)
    requires absorbed <= decisions
    ensures 0.0 <= r <= 1.0
    ensures decisions == 0 ==> r == 0.0
    ensures decisions > 0 ==> r * decisions as real == absorbed as real
    ensures decisions > 0 && absorbed == decisions ==> r == 1.0
  {
    if decisions == 0 then 0.0 else absorbed as real / decisions as real
  }

  datatype DecisionStatistics = DecisionStatistics(
    totalDecisions: nat,
    forwarded: nat,
    absorbed: nat,
    absorptionRate: real)

  class DecisionEngine {
    var decisionsMade: nat
    var circuitsForwarded: nat
    var circuitsAbsorbed: nat

    /** Every decision is counted once, as forwarded or as absorbed. */
    ghost predicate Valid()
      reads this
    {
      circuitsForwarded + circuitsAbsorbed == decisionsMade
    }

    constructor ()
      ensures Valid()
      ensures decisionsMade == 0 && circuitsForwarded == 0 && circuitsAbsorbed == 0
    {
      decisionsMade := 0;
      circuitsForwarded := 0;
      circuitsAbsorbed := 0;
    }

    /**
     * `decide`: returns the action of the decision rule, counts the decision
     * and exactly one of the two outcomes.
     */
    method Decide(score: real, threshold: real) returns (a: CircuitAction)
      requires Valid()
      modifies this
      ensures Valid()
      ensures a == Action(score, threshold)
      ensures decisionsMade == old(decisionsMade) + 1
      ensures a == Forward ==> circuitsForwarded == old(circuitsForwarded) + 1 && circuitsAbsorbed == old(circuitsAbsorbed)
      ensures a == Absorb ==> circuitsAbsorbed == old(circuitsAbsorbed) + 1 && circuitsForwarded == old(circuitsForwarded)
    {
      decisionsMade := decisionsMade + 1;
      if score > threshold {
        circuitsForwarded := circuitsForwarded + 1;
        a := Forward;
      } else {
        circuitsAbsorbed := circuitsAbsorbed + 1;
        a := Absorb;
      }
    }

    /** `absorption_rate`: the absorbed fraction of all decisions, 0 before the first one. */
    function AbsorptionRate(): (r: real)
      requires Valid()
      reads this
      ensures 0.0 <= r <= 1.0
      ensures decisionsMade == 0 ==> r == 0.0
      ensures decisionsMade > 0 ==> r * decisionsMade as real == circuitsAbsorbed as real
    {
      Rate(circuitsAbsorbed, decisionsMade)
    }

    /** `statistics`: a read-only snapshot of the counters and the rate. */
    function Statistics(): (s: DecisionStatistics)
      requires Valid()
      reads this
      ensures s.totalDecisions == decisionsMade && s.forwarded == circuitsForwarded && s.absorbed == circuitsAbsorbed
      ensures s.forwarded + s.absorbed == s.totalDecisions
      ensures 0.0 <= s.absorptionRate <= 1.0
    {
      DecisionStatistics(decisionsMade, circuitsForwarded, circuitsAbsorbed, AbsorptionRate())
    }

    /** `reset`: all three counters back to 0. */
    method Reset()
      modifies this
      ensures Valid()
      ensures decisionsMade == 0 && circuitsForwarded == 0 && circuitsAbsorbed == 0
    {
      decisionsMade := 0;
      circuitsForwarded := 0;
      circuitsAbsorbed := 0;
    }
  }
}
