# Thronion, Ophanion and QRADIANCE in Dafny

A verified model of the discrete core of three cooperating Tor-defence
components.

**Thronion online region classifier** (`thronion_kernel.dfy`).
- The store is a bounded list of learned Gabriel regions.
- A sample is classified by the region with the best hybrid resonance. The score is 0.3 / (1 + d) + 0.7 F. Here d is the distance between the classical feature vectors and F is the quantum fidelity. The first region with the strictly greatest score wins.
- A strong match blends the matched region in place.
- A weak match appends a new region. When the store is full, the least-confident region is overwritten instead.
- The enhanced kernel counts classifications and optimises periodically. Optimising merges near-duplicate regions, removing them by index.

**Ophanion decision pipeline.**
- `decision.dfy`: the decision counters.
- `adaptive_threshold.dfy`: the clamped adaptive threshold, with a rolling window of 1000 outcomes.
- `ophanion_core.dfy`: the library's threshold, Gabriel cell and spectrum.
- `gabriel_cluster.dfy`: the cell cluster, covering nearest and k-nearest search, cell updates, connections and decay.
- `resonance_engine.dfy`: the weighted resonance score.
- `spectral_engine.dfy`: the shapes of the spectral fingerprint, the features, the 128-entry signature and the timing entropy.
- `ophanion_delta_kernel.dfy`: the parameter clamps of the delta kernel.
- `ophanion_config.dfy`: the configuration validator.
- `circuit_monitor.dfy`: the capacity-bounded circuit map.

**Service** (`thronion_service.dfy`): Thronion's service configuration and its running flag.

**QRADIANCE substrate.**
- `metatron.dfy`: the 13-node Metatron graph.
- `dtl.dfy`: dynamic tripolar logic.
- `absorber.dfy`: the resonant absorber.
- `tic.dfy`: the temporal information crystal.

**Thronion's remaining pieces.**
- `spectral_fingerprint.dfy`: the packet spectral fingerprint.
- `eigenstate.dfy`: the Mandorla regions and operator.
- `omega5.dfy` and `nullpoint.dfy`: the five-dimensional state, the topological guards and the guard validator.

**Shared definitions.**
- `numerics.dfy`: complex amplitudes, quantum states, sums and clamps, and the oracle predicates.
- `index_sort.dfy`: the stable sort of indices by key.

How the source is represented:
- Each source file is one module. Where the source updates an object's fields, that object is a class: the kernels, the cluster, the engines, the threshold, the monitor, the absorber, the crystals, the Metatron graph and the Mandorla operator. Everything else is a datatype or a function.
- `f64` is represented by `real`. Integer counters are represented by `nat`.
- Some numeric routines are passed in as function-valued parameters:
  - `sqrt`, `exp`, `ln`, `log2`, `sin` and `cos`;
  - the quantum fidelity and the classical-to-quantum embedding;
  - state normalisation;
  - the FFT;
  - the block hash;
  - the coherence gradient of the Thronion delta kernel.

  Each is constrained only by the facts the code relies on. For example, the fidelity lies in [0, 1] and is 1 on equal states, and `sqrt` of a non-negative value is non-negative and squares back.
- Loops that update state are methods with loop invariants, proved against specification functions. The lemmas beside them prove the promised properties of those functions.

## Model

| member | source | states |
|---|---|---|
| ThronionKernel.ToVector | thronion/src/thronion/mod.rs:59-67 | the feature map has five entries and passes the data and introduction ratios through unchanged; a positive byte count keeps ln away from 0 |
| ThronionKernel.NewRegion | thronion/src/thronion/mod.rs:89-101 | a new region keeps the given centres and learning rate, has no samples, attack probability 0.5 and a Mandorla region of radius 0.5 centred twice on the quantum state |
| ThronionKernel.HybridResonance | thronion/src/thronion/mod.rs:105-120 | 0.3/(1+d) + 0.7 F lies in (0, 1] when the fidelity F lies in [0, 1] |
| ThronionKernel.SelfResonanceIsOne | thronion/src/thronion/mod.rs:248-263 | a region scores exactly 1 against its own centres |
| ThronionKernel.BlendSignature | thronion/src/thronion/mod.rs:127-137 | the five-field EMA is the old centre at alpha 0, the sample at alpha 1, and keeps the byte count positive for alpha in [0, 1] |
| ThronionKernel.Update | thronion/src/thronion/mod.rs:123-147 | one more sample; the quantum centre becomes the sample's state; the probability stays in [0, 1]; a rate of 0 freezes the centre and the probability, a rate of 1 copies the sample and its label |
| ThronionKernel.BenignSeedIsFrozen | thronion/src/thronion/mod.rs:401-423 | a region seeded for a benign sample gets learning rate 0, so every later update leaves its classical centre and its probability 0.5 in place |
| ThronionKernel.FrozenRegionStaysFrozen | thronion/src/thronion/mod.rs:123-147 | any sequence of updates with learning rate 0 leaves the centre, the probability and the rate unchanged |
| ThronionKernel.AttackSeedFollowsLastLabel | thronion/src/thronion/mod.rs:404-405 | a region seeded for an attack starts at probability 0.5 with rate 1; its first update copies the new label and sample |
| ThronionKernel.Scores | thronion/src/thronion/mod.rs:359-365 | one score per region, each in (0, 1] |
| ThronionKernel.BestScore | thronion/src/thronion/mod.rs:356-365 | the scan's best score is at least 0 and at least every score; its index is the first one that reaches it, and there is none only when no score is positive |
| ThronionKernel.BestScoreFindsIndex | thronion/src/thronion/mod.rs:388-394 | with positive scores a non-empty scan always finds an index |
| ThronionKernel.Confidences | thronion/src/thronion/mod.rs:412-418 | one confidence per region |
| ThronionKernel.LeastConfidentMeaning | thronion/src/thronion/mod.rs:409-418 | the minimum (at most 1.0) and the first index reaching it below 1.0, or index 0 when no entry is below 1.0 |
| ThronionKernel.ClassifyPicksFirstBest | thronion/src/thronion/mod.rs:345-377 | on a non-empty store the first region with the strictly greatest resonance is reported, and the verdict is an attack iff that resonance exceeds 0.3 and the region's probability exceeds 0.7 |
| ThronionKernel.LearnUpdatesOnlyMatch | thronion/src/thronion/mod.rs:396-400 | a match above 0.5 updates exactly the first best region and leaves every other region as it was |
| ThronionKernel.LearnNeverDropsSample | thronion/src/thronion/mod.rs:401-423 | a match at most 0.5 always stores a seeded region: appended below capacity, otherwise written over the first least-confident region |
| ThronionKernel.LearnKeepsInvariant | thronion/src/thronion/mod.rs:380-424 | learning keeps the store within capacity and well formed, never shrinks it and grows it by at most one |
| ThronionKernel.CountAttack | thronion/src/thronion/mod.rs:428 | the number of attack regions is at most the number of regions |
| ThronionKernel.Kernel.constructor | thronion/src/thronion/mod.rs:323-330 | empty store, threshold 0.5, capacity 100, learning rate 0.1 |
| ThronionKernel.Kernel.WithParams | thronion/src/thronion/mod.rs:333-340 | empty store with the given threshold, capacity and learning rate |
| ThronionKernel.Kernel.FindBestMatch | thronion/src/thronion/mod.rs:385-394 | the resonance loop computes BestScore of the region scores |
| ThronionKernel.Kernel.Classify | thronion/src/thronion/mod.rs:345-377 | (false, 0.0, None) on an empty store; otherwise the scan's best region, a valid index; the store is not changed and the attack threshold is not used |
| ThronionKernel.Kernel.FindLeastConfident | thronion/src/thronion/mod.rs:409-418 | the loop returns the first index of least confidence, a valid index |
| ThronionKernel.LeastConfidentScan | thronion/src/thronion/mod.rs:410-418 | the scan over each region's distance of its attack probability from 0.5 ends at the first index of least confidence |
| ThronionKernel.Kernel.Learn | thronion/src/thronion/mod.rs:380-424 | the store becomes LearnSpec of the old store; capacity, threshold and rate are unchanged; the kernel stays valid |
| ThronionKernel.Kernel.Stats | thronion/src/thronion/mod.rs:427-437 | total regions, attack regions (p > 0.7) and benign regions, which partition the store, and the threshold |
| ThronionKernel.Kernel.Reset | thronion/src/thronion/mod.rs:440-442 | the store is emptied and nothing else changes |
| ThronionKernel.RowPairsShape | thronion/src/thronion/mod.rs:539-547 | row i collects pairs (i, j), i < j, in increasing j |
| ThronionKernel.RowPairsExact | thronion/src/thronion/mod.rs:539-547 | a row holds (i, j) exactly when the fidelity of the two quantum centres exceeds 0.9 |
| ThronionKernel.PairsUpToOrdered | thronion/src/thronion/mod.rs:538-548 | the pairs of the first n rows are in lexicographic order with i < j < n regions |
| ThronionKernel.CoherentPairs | thronion/src/thronion/mod.rs:535-548 | `to_merge` holds ordered pairs i < j of valid indices in lexicographic order |
| ThronionKernel.CoherentPairsExact | thronion/src/thronion/mod.rs:538-548 | every pair with fidelity above 0.9 is collected, and only those |
| ThronionKernel.MergedProbabilityInRange | thronion/src/thronion/mod.rs:557-564 | the sample-weighted mean of two probabilities in [0, 1] is in [0, 1] |
| ThronionKernel.MergeOne | thronion/src/thronion/mod.rs:551-571 | a pair with j still in range merges into region i (its centres and rate kept) and removes region j, shifting the later regions down; a pair with j out of range changes nothing |
| ThronionKernel.MergeNeverGrows | thronion/src/thronion/mod.rs:551-571 | merging never grows the store and leaves it unchanged when no pair qualifies |
| ThronionKernel.MergeKeepsWellFormed | thronion/src/thronion/mod.rs:557-566 | merging keeps every region well formed |
| ThronionKernel.MergeSpecKeepsShape | thronion/src/thronion/mod.rs:534-572 | the merged store is no larger and still well formed |
| ThronionKernel.MergeKeepsPrefix | thronion/src/thronion/mod.rs:551-571 | while the pairs left to process start at or after m, regions before m are untouched and region m keeps its place and quantum centre |
| ThronionKernel.MergeNeverShiftsKeptIndex | thronion/src/thronion/mod.rs:551-571 | when pair (i, j) is processed, index i still holds the original region i |
| ThronionKernel.MergeCanShiftRemovedIndex | thronion/src/thronion/mod.rs:551-571 | with pairs (0,3), (1,2) the second removal deletes the original region 4, not region 3: earlier removals shift j |
| ThronionKernel.StepsUntilStableBounds | thronion/src/thronion/mod.rs:524-529 | the evolve loop takes between k and 10 steps, every intermediate state unstable, and stops at the first stable state |
| ThronionKernel.StepsUntilStableIs | thronion/src/thronion/mod.rs:524-529 | a step count with those properties is the loop's count |
| ThronionKernel.OptimizeStepsBounds | thronion/src/thronion/mod.rs:513-531 | no step when the gradient is at most 0.1; otherwise between 1 and 10 steps, stopping at the first stable state |
| ThronionKernel.EnhancedKernel.constructor | thronion/src/thronion/mod.rs:477-486 | interval 100, no classifications, the given base kernel |
| ThronionKernel.EnhancedKernel.CollectCoherentPairs | thronion/src/thronion/mod.rs:535-548 | the double loop computes CoherentPairs of the store |
| ThronionKernel.EnhancedKernel.MergeCoherentRegions | thronion/src/thronion/mod.rs:534-572 | the store becomes MergeSpec of the old store; capacity, threshold and rate unchanged |
| ThronionKernel.Kernel.MergeStep | thronion/src/thronion/mod.rs:552-570 | one merge pair applied: the store becomes MergeOne of the old store; capacity, threshold and rate unchanged |
| ThronionKernel.EnhancedKernel.Evolve | thronion/src/thronion/mod.rs:509 | one delta-kernel step; the counters are unchanged |
| ThronionKernel.EnhancedKernel.EvolveUntilStable | thronion/src/thronion/mod.rs:524-529 | the loop takes StepsUntilStable steps |
| ThronionKernel.EnhancedKernel.Optimize | thronion/src/thronion/mod.rs:513-531 | with gradient above 0.1 the store is merged and OptimizeSteps evolve steps are taken; otherwise nothing changes |
| ThronionKernel.EnhancedKernel.Classify | thronion/src/thronion/mod.rs:489-501 | the count rises by one; the result is the base classification of the store before optimisation; optimisation runs exactly when the count is a multiple of the interval; capacity, attack threshold and learning rate are unchanged |
| ThronionKernel.EnhancedKernel.Learn | thronion/src/thronion/mod.rs:504-510 | the store becomes LearnSpec of the old store and the delta kernel takes one step; capacity, attack threshold, learning rate and the counters are unchanged |
| ThronionKernel.EnhancedKernel.Stats | thronion/src/thronion/mod.rs:585-594 | the base statistics, and stability iff the gradient is below 0.05 |
| Decision.Action | ophanion-main/src/decision.rs:19-29 | a circuit is forwarded exactly when its score is strictly above the threshold, and absorbed otherwise |
| Decision.TieIsAbsorbed | ophanion-main/src/decision.rs:77-92 | a score equal to the threshold is absorbed; 0.8 against 0.5 is forwarded and 0.3 against 0.5 absorbed |
| Decision.Rate | ophanion-main/src/decision.rs:32-38 | the absorbed fraction lies in [0, 1], is 0 before any decision and is exactly absorbed/decisions after |
| Decision.DecisionEngine.constructor | ophanion-main/src/decision.rs:10-16 | all three counters start at 0 |
| Decision.DecisionEngine.Decide | ophanion-main/src/decision.rs:19-29 | returns the rule's action, counts the decision and exactly one of the two outcomes |
| Decision.DecisionEngine.AbsorptionRate | ophanion-main/src/decision.rs:32-38 | the absorbed fraction of all decisions, in [0, 1], 0 before the first one |
| Decision.DecisionEngine.Statistics | ophanion-main/src/decision.rs:41-48 | a snapshot of the counters whose forwarded and absorbed counts add up to the total, with the rate in [0, 1] |
| Decision.DecisionEngine.Reset | ophanion-main/src/decision.rs:51-55 | all three counters return to 0 |
| AdaptiveThresholds.Encode | ophanion-main/src/threshold.rs:43-50 | each outcome is stored as 1.0 for an absorption and 0.0 otherwise |
| AdaptiveThresholds.Last | ophanion-main/src/threshold.rs:46-48 | the window keeps min(n, length) entries |
| AdaptiveThresholds.Record | ophanion-main/src/threshold.rs:43-50 | one record pushes the outcome and drops the oldest entry beyond 1000; the window stays at most 1000 long and 0/1-valued |
| AdaptiveThresholds.RecordAll | ophanion-main/src/threshold.rs:43-50 | a run of records keeps the window at most 1000 long |
| AdaptiveThresholds.LastAppend | ophanion-main/src/threshold.rs:46-48 | trimming before an append and trimming after it agree |
| AdaptiveThresholds.WindowKeepsMostRecent | ophanion-main/src/threshold.rs:43-50 | the window always holds the most recent (at most) 1000 values recorded so far, in arrival order |
| AdaptiveThresholds.Mean | ophanion-main/src/threshold.rs:52-59 | the mean of a 0/1 window lies in [0, 1], is 0 on an empty window and is the sum over the length otherwise |
| AdaptiveThresholds.AllAbsorbedRateIsOne | ophanion-main/src/threshold.rs:52-59 | a window of absorptions only has rate 1 |
| AdaptiveThresholds.AdaptiveThreshold.constructor | ophanion-main/src/threshold.rs:14-26 | the threshold starts from the settings' initial value (clamped) and rate, with empty histories |
| AdaptiveThresholds.AdaptiveThreshold.Value | ophanion-main/src/threshold.rs:28-30 | the threshold always lies in [0, 1] |
| AdaptiveThresholds.AdaptiveThreshold.Update | ophanion-main/src/threshold.rs:32-41 | one threshold step against -coherence + 0.2 flood energy; the coherence joins its history and the absorption window is not touched |
| AdaptiveThresholds.AdaptiveThreshold.RecordAbsorption | ophanion-main/src/threshold.rs:43-50 | the window becomes Record of the old window; the coherence history is untouched |
| AdaptiveThresholds.AdaptiveThreshold.AbsorptionRate | ophanion-main/src/threshold.rs:52-59 | the window's mean, in [0, 1], and 0 when the window is empty |
| AdaptiveThresholds.AdaptiveThreshold.EmptyWindowConvergence | ophanion-main/src/threshold.rs:61-66 | with an empty window only a target within 0.05 of 0 counts as converged |
| AdaptiveThresholds.Gradient | ophanion-main/src/threshold.rs:35-36 | the gradient -coherence + 0.2 flood energy handed to the threshold step |
| AdaptiveThresholds.AdaptiveThreshold.HasConverged | ophanion-main/src/threshold.rs:61-66 | the absorption rate lies strictly within the fixed 0.05 of the target; AllAbsorbedConvergence and EmptyWindowConvergence state its two boundary cases |
| AdaptiveThresholds.AdaptiveThreshold.AllAbsorbedConvergence | ophanion-main/src/threshold.rs:52-66 | a window of absorptions only is converged exactly for a target strictly within 0.05 of 1, so the default 0.95 is not |
| OphanionCore.DominantFrequency | ophanion-main/src/lib.rs:23-32 | with amplitudes, the frequency at the last greatest amplitude, or 0.0 when that index is past the frequencies; index 0 with no amplitudes; 0.0 with no frequencies |
| OphanionCore.DominantFrequencyExample | ophanion-main/src/lib.rs:160-167 | the test spectrum peaks at 0.1 |
| OphanionCore.Energy | ophanion-main/src/lib.rs:34-36 | the sum of squared amplitudes is non-negative and 0 for a silent spectrum |
| OphanionCore.ThresholdStep | ophanion-main/src/lib.rs:96-99 | value - lambda g clamped into [0, 1]: with a non-negative rate a non-negative gradient never raises it and a non-positive one never lowers it |
| OphanionCore.Threshold.constructor | ophanion-main/src/lib.rs:89-94 | the value is clamped into [0, 1] and the rate to at least 0 |
| OphanionCore.Threshold.Update | ophanion-main/src/lib.rs:96-99 | the value becomes one ThresholdStep; the rate is unchanged |
| OphanionCore.NewCell | ophanion-main/src/lib.rs:113-121 | a zero centroid of the given dimension, covariance 1, strength 0 and no connections |
| OphanionCore.DistanceTo | ophanion-main/src/lib.rs:123-125 | the Euclidean distance is non-negative and 0 at the centroid itself |
| OphanionCore.UpdateCentroid | ophanion-main/src/lib.rs:127-129 | each coordinate becomes (1 - alpha) c + alpha s; alpha 0 keeps the cell, alpha 1 copies the signature; no other field changes |
| OphanionCore.FindConnection | ophanion-main/src/lib.rs:136-137 | the first connection with the id, or none when no connection has it |
| OphanionCore.ConnectStepLinks | ophanion-main/src/lib.rs:131-145 | a step against another cell changes only the connections |
| OphanionCore.ConnectAll | ophanion-main/src/lib.rs:131-145 | the id, centroid, covariance and strength are unchanged |
| OphanionCore.UpdateConnections | ophanion-main/src/lib.rs:131-145 | the loop over the other cells computes ConnectAll and changes only the connections |
| OphanionCore.ConnectKeepsUnique | ophanion-main/src/lib.rs:136-143 | one link update keeps ids unique and adds exactly the other cell's id |
| OphanionCore.ConnectAllIds | ophanion-main/src/lib.rs:131-145 | the ids stay unique and become the old ones plus the ids of the other cells, never the cell's own id |
| GabrielClusters.Strengths | ophanion-main/src/gabriel_cell.rs:107-114 | the strengths of the cells, in cell order |
| GabrielClusters.Distances | ophanion-main/src/gabriel_cell.rs:42-45 | one non-negative distance per cell, the cell's `distance_to` the signature |
| GabrielClusters.Reinforce | ophanion-main/src/gabriel_cell.rs:56-64 | the centroid is blended and the strength raised by the boost and capped at 1; a positive boost strictly raises a strength below 1, and strengths stay in [0, 1] |
| GabrielClusters.UpdateStep | ophanion-main/src/gabriel_cell.rs:70-78 | an update of the listed cell only; an id out of range changes nothing; dimensions are kept |
| GabrielClusters.ApplyUpdates | ophanion-main/src/gabriel_cell.rs:67-79 | the updates are applied in list order, each with rate alpha w_i and gain 0.01 w_i, weight 1.0 past the end of the weights |
| GabrielClusters.ApplyUpdatesTouchesOnlyIds | ophanion-main/src/gabriel_cell.rs:67-79 | a cell whose index is not listed is unchanged |
| GabrielClusters.ApplyUpdatesRaisesStrengths | ophanion-main/src/gabriel_cell.rs:67-79 | with non-negative weights strengths stay in [0, 1] and none decreases |
| GabrielClusters.ConnectForward | ophanion-main/src/gabriel_cell.rs:82-95 | cell i is linked against exactly the cells after it |
| GabrielClusters.LaterIds | ophanion-main/src/gabriel_cell.rs:82-95 | with ids equal to indices the other ids after i are exactly the indices above i |
| GabrielClusters.ConnectForwardLinksLaterCells | ophanion-main/src/gabriel_cell.rs:82-95 | cell i's connection ids become the old ones plus exactly the indices above i, and stay unique |
| GabrielClusters.Decayed | ophanion-main/src/gabriel_cell.rs:98-104 | decay scales only the strength, which stays in [0, 1] for a factor in [0, 1] |
| GabrielClusters.MeanStrength | ophanion-main/src/gabriel_cell.rs:107-114 | the mean strength times the cell count is the total strength, and lies in [0, 1] for unit strengths |
| GabrielClusters.Decay | ophanion-main/src/gabriel_cell.rs:98-104 | every cell decayed by the factor |
| GabrielClusters.DecayScalesTotal | ophanion-main/src/gabriel_cell.rs:98-104 | the total strength is scaled by the factor |
| GabrielClusters.DecayScalesCoherence | ophanion-main/src/gabriel_cell.rs:98-114 | the global coherence is scaled by the factor |
| GabrielClusters.DecayLowersPositiveCoherence | ophanion-main/src/gabriel_cell.rs:222-237 | a factor below 1 strictly lowers a positive coherence |
| GabrielClusters.NearestK | ophanion-main/src/gabriel_cell.rs:39-53 | min(k, n) distinct valid indices in stable ascending distance, and no index left out is nearer than one taken; on an equal distance the lower index is taken |
| GabrielClusters.Deviations | ophanion-main/src/gabriel_cell.rs:143-147 | each strength's deviation from the mean |
| GabrielClusters.GabrielCluster.constructor | ophanion-main/src/gabriel_cell.rs:12-21 | cells 0..n-1, each a new cell of the configured dimension |
| GabrielClusters.GabrielCluster.FindNearest | ophanion-main/src/gabriel_cell.rs:24-36 | the first index of least distance, and 0 for an empty cluster |
| GabrielClusters.GabrielCluster.FindKNearest | ophanion-main/src/gabriel_cell.rs:39-53 | min(k, n) distinct indices in stable ascending distance; no index left out is nearer than an index taken |
| GabrielClusters.GabrielCluster.UpdateCell | ophanion-main/src/gabriel_cell.rs:56-64 | the cell at that index is blended with rate alpha and gains 0.01 strength capped at 1; an index out of range changes nothing |
| GabrielClusters.GabrielCluster.UpdateCells | ophanion-main/src/gabriel_cell.rs:67-79 | the listed cells in turn, as ApplyUpdates |
| GabrielClusters.RunUpdates | ophanion-main/src/gabriel_cell.rs:70-78 | the loop over the ids ends with ApplyUpdates of all of them, in order |
| GabrielClusters.GabrielCluster.UpdateConnections | ophanion-main/src/gabriel_cell.rs:82-95 | the cells become ConnectForward of the old cells |
| GabrielClusters.ConnectCells | ophanion-main/src/gabriel_cell.rs:85-94 | the loop links each cell against the still unchanged cells after it, giving ConnectForward |
| GabrielClusters.GabrielCluster.ApplyDecay | ophanion-main/src/gabriel_cell.rs:98-104 | every strength is multiplied by the factor |
| GabrielClusters.GabrielCluster.GlobalCoherence | ophanion-main/src/gabriel_cell.rs:107-114 | the mean strength, in [0, 1] for unit strengths |
| GabrielClusters.GabrielCluster.WeightedCoherence | ophanion-main/src/gabriel_cell.rs:117-133 | sum of squared strengths over the sum of strengths, 0 when the strengths sum to 0, in [0, 1] for unit strengths |
| GabrielClusters.GabrielCluster.Statistics | ophanion-main/src/gabriel_cell.rs:136-160 | the mean strength, a non-negative variance (mean squared deviation) and deviation, the cells above 0.1, and the cell count |
| IndexSort.Insert | ophanion-main/src/gabriel_cell.rs:47 | stable insertion keeps the index sequence ordered and adds exactly one index |
| IndexSort.SortIndices | ophanion-main/src/gabriel_cell.rs:47 | a stable sort by distance: a permutation of 0..n-1 in ascending key order, ties by index |
| IndexSort.OrderedDistinct | ophanion-main/src/gabriel_cell.rs:47 | a sorted index sequence has no repeated index |
| IndexSort.PrefixHoldsSmallest | ophanion-main/src/gabriel_cell.rs:49-52 | taking a prefix of the sorted indices keeps the smallest keys |
| Resonance.Kernel | ophanion-main/src/resonance.rs:29 | the Gaussian kernel of a positive covariance lies in (0, 1] |
| Resonance.AllIndices | ophanion-main/src/resonance.rs:24 | the indices 0..n-1 in order |
| Resonance.TotalsBounded | ophanion-main/src/resonance.rs:21-33 | with non-negative strengths 0 <= total score <= total weight |
| Resonance.ScoreInUnitInterval | ophanion-main/src/resonance.rs:35-39 | with non-negative strengths the score lies in [0, 1] |
| Resonance.ZeroStrengthsScoreZero | ophanion-main/src/resonance.rs:142-157 | with every strength 0, as in a fresh cluster, the score is 0 |
| Resonance.InverseDistance | ophanion-main/src/resonance.rs:82-89 | 1/(d + 1e-10) is positive for an id in range and 0 otherwise |
| Resonance.RawWeights | ophanion-main/src/resonance.rs:81-90 | one inverse-distance weight per listed id, in order |
| Resonance.Normalize | ophanion-main/src/resonance.rs:94-99 | divided by the sum when it is positive, otherwise uniform 1/len |
| Resonance.NormalizeSumsToOne | ophanion-main/src/resonance.rs:94-99 | normalised weights of a non-empty list sum to 1 |
| Resonance.KnnWeights | ophanion-main/src/resonance.rs:76-99 | one weight per listed id |
| Resonance.KnnWeightsArePositiveAndSumToOne | ophanion-main/src/resonance.rs:76-99 | for ids in range the weights are positive, sum to 1 and are the inverse distances over their sum |
| Resonance.LearnStepRaisesCoherence | ophanion-main/src/resonance.rs:70-73 | one learning step strictly raises the coherence when the nearest cell is below 1 |
| Resonance.ResonanceEngine.constructor | ophanion-main/src/resonance.rs:11-15 | a new cluster for the settings |
| Resonance.ResonanceEngine.ComputeScore | ophanion-main/src/resonance.rs:18-40 | the loop computes the strength-weighted mean kernel over all cells, in [0, 1] for non-negative strengths |
| Resonance.ResonanceEngine.ComputeScoreKnn | ophanion-main/src/resonance.rs:43-67 | the same weighted mean over the k nearest cells only |
| Resonance.ScoreOfAll | ophanion-main/src/resonance.rs:21-39 | the loop over every cell ends with the strength-weighted mean kernel, in [0, 1] for non-negative strengths |
| Resonance.ScoreOfIds | ophanion-main/src/resonance.rs:47-66 | the loop over the listed ids, skipping ids out of range, ends with the weighted mean over those cells, in [0, 1] for non-negative strengths |
| Resonance.ResonanceEngine.LearnSignature | ophanion-main/src/resonance.rs:70-73 | exactly the nearest cell is updated |
| Resonance.ResonanceEngine.LearnSignatureKnn | ophanion-main/src/resonance.rs:76-102 | the k nearest cells are updated in order with the normalised inverse-distance weights |
| Resonance.ResonanceEngine.MaintenanceCycle | ophanion-main/src/resonance.rs:105-108 | connections are updated, then every strength decays by 0.99 |
| Resonance.ResonanceEngine.Coherence | ophanion-main/src/resonance.rs:111-113 | the cluster's mean strength |
| Resonance.FreshLearnRaisesCoherence | ophanion-main/src/resonance.rs:173-188 | on a fresh engine any learning step strictly raises the coherence |
| SpectralEngines.NextPowerOfTwoFrom | ophanion-main/src/spectral.rs:33 | the least power of two reached by doubling from p that is at least n |
| SpectralEngines.NextPowerOfTwo | ophanion-main/src/spectral.rs:33 | a power of two that is at least n and at least 1, and whose half is below n unless it is 1 |
| SpectralEngines.NextPowerOfTwoExamples | ophanion-main/src/spectral.rs:32-33 | 0 pads to 1, 6 to 8 and 8 to itself |
| SpectralEngines.FrequencyGrid | ophanion-main/src/spectral.rs:45-47 | len strictly increasing frequencies i/len in [0, 1) |
| SpectralEngines.Fingerprint | ophanion-main/src/spectral.rs:18-58 | [0.0]/[0.0] without timings; otherwise as many non-negative amplitudes as the padded length, with the frequency grid |
| SpectralEngines.MinOf | ophanion-main/src/spectral.rs:78-80 | the least timing: below every entry and equal to one |
| SpectralEngines.MaxOf | ophanion-main/src/spectral.rs:81-83 | the greatest timing: above every entry and equal to one |
| SpectralEngines.Sorted | ophanion-main/src/spectral.rs:86-87 | an ascending rearrangement of the timings: some permutation of their indices lists them in sorted order |
| SpectralEngines.QuartileIndicesInRange | ophanion-main/src/spectral.rs:88-91 | the quartile positions n/4 <= 3n/4 are valid indices, so the `unwrap_or(0.0)` fallback is never taken |
| SpectralEngines.MeanBetween | ophanion-main/src/spectral.rs:72 | a mean lies between the bounds of what it averages |
| SpectralEngines.Moments | ophanion-main/src/spectral.rs:71-76 | the mean lies between min and max, variance and standard deviation are non-negative and zero together |
| SpectralEngines.Features | ophanion-main/src/spectral.rs:61-99 | eight zeros without timings; otherwise mean, deviation, min, max, a non-negative IQR, variance, age and bytes over max(age, 1) |
| SpectralEngines.PaddedSignature | ophanion-main/src/spectral.rs:118-121 | the raw signature followed by zeros up to 128 entries |
| SpectralEngines.Scaled | ophanion-main/src/spectral.rs:126-128 | every entry divided by the norm |
| SpectralEngines.Signature | ophanion-main/src/spectral.rs:102-132 | always exactly 128 entries |
| SpectralEngines.SignatureLayout | ophanion-main/src/spectral.rs:107-121 | at most 120 amplitudes, then the eight features, then zeros |
| SpectralEngines.ZeroSignatureUnchanged | ophanion-main/src/spectral.rs:124-129 | an all-zero signature is returned unchanged, never divided by 0 |
| SpectralEngines.Bin | ophanion-main/src/spectral.rs:152-153 | the floor of the scaled offset times 9.99, saturated at 0 and capped at 9, is a valid bin |
| SpectralEngines.Histogram | ophanion-main/src/spectral.rs:146-155 | ten bins filled one timing at a time |
| SpectralEngines.NatSumUpdate | ophanion-main/src/spectral.rs:154 | one bin incremented changes the total by the change of that bin |
| SpectralEngines.NatSumZeros | ophanion-main/src/spectral.rs:146 | the fresh histogram holds no counts |
| SpectralEngines.NatSumBounds | ophanion-main/src/spectral.rs:162 | every bin count is at most the total |
| SpectralEngines.HistogramCountsAll | ophanion-main/src/spectral.rs:151-155 | the histogram counts every timing exactly once |
| SpectralEngines.EntropyNonneg | ophanion-main/src/spectral.rs:159-165 | each -p log2 p term of a non-empty bin is non-negative, so the sum is |
| SpectralEngines.Entropy | ophanion-main/src/spectral.rs:135-166 | 0 without timings; otherwise the entropy of the histogram over [min, min + max(range, 1e-10)], never negative |
| SpectralEngines.PadWithZeros | ophanion-main/src/spectral.rs:119-121 | the loop's result is the padded signature |
| SpectralEngines.DivideByNorm | ophanion-main/src/spectral.rs:126-128 | the loop's result is every entry divided by the norm |
| SpectralEngines.SpectralEngine.constructor | ophanion-main/src/spectral.rs:11-15 | an engine around the given transform |
| SpectralEngines.SpectralEngine.ComputeFingerprint | ophanion-main/src/spectral.rs:18-58 | the fingerprint of the circuit's timings, with as many frequencies as amplitudes and at least one |
| SpectralEngines.SpectralEngine.ExtractFeatures | ophanion-main/src/spectral.rs:61-99 | the eight features of the circuit |
| SpectralEngines.SpectralEngine.CreateSignature | ophanion-main/src/spectral.rs:102-132 | the 128-entry signature, through the padding and normalising loops |
| SpectralEngines.SpectralEngine.TimingEntropy | ophanion-main/src/spectral.rs:135-166 | the histogram loop and the sum give the entropy, never negative |
| OphanionDeltaKernel.GradientNormSq | ophanion-main/src/delta_kernel.rs:26-32 | the sum of the squared partials, never negative |
| OphanionDeltaKernel.GradientMagnitude | ophanion-main/src/delta_kernel.rs:21-33 | the square root of that sum, never negative |
| OphanionDeltaKernel.GradientVanishesOnlyAtRest | ophanion-main/src/delta_kernel.rs:21-33 | the gradient is 0 exactly when coherence and flood energy are both 0 |
| OphanionDeltaKernel.Step | ophanion-main/src/delta_kernel.rs:36-52 | the result lies in the clamp ranges; a zero eta or a zero gradient leaves in-range parameters unchanged |
| OphanionDeltaKernel.StepMovesAtMostGradient | ophanion-main/src/delta_kernel.rs:44-51 | no parameter of an in-range point moves by more than eta times its partial |
| OphanionDeltaKernel.DeltaKernel.constructor | ophanion-main/src/delta_kernel.rs:11-18 | alpha, beta and theta copied from the settings, unclamped |
| OphanionDeltaKernel.DeltaKernel.OptimizeStep | ophanion-main/src/delta_kernel.rs:36-52 | the parameters become the clamped step of the old ones with the configured eta |
| OphanionDeltaKernel.DeltaKernel.GetParams | ophanion-main/src/delta_kernel.rs:55-57 | the current alpha, beta and theta |
| OphanionDeltaKernel.DeltaKernel.ConvergenceAtRest | ophanion-main/src/delta_kernel.rs:60-62 | at zero coherence and flood energy a positive epsilon is met |
| OphanionDeltaKernel.DeltaKernel.NoConvergenceWithoutTolerance | ophanion-main/src/delta_kernel.rs:60-62 | a non-positive epsilon is never met |
| OphanionDeltaKernel.DeltaKernel.HasConverged | ophanion-main/src/delta_kernel.rs:60-62 | the gradient magnitude is strictly below the configured epsilon |
| OphanionConfig.Validate | ophanion-main/src/config.rs:201-219 | accepted exactly when cells > 0, spectral dimension > 0 and both the initial threshold and target rate lie in [0, 1]; each rejection names the first failed check, in the source's order |
| OphanionConfig.DefaultsAreValid | ophanion-main/src/config.rs:227-230 | the defaults (64 cells, 128 dimensions) are accepted |
| OphanionConfig.ZeroCellsRejected | ophanion-main/src/config.rs:233-238 | zero cells are rejected whatever else is set |
| OphanionConfig.UncheckedFieldsIgnored | ophanion-main/src/config.rs:201-219 | configurations agreeing on the four checked fields validate alike |
| ThronionServices.Validate | thronion/src/service/mod.rs:203-221 | accepted exactly when max regions > 0 and the attack, resonance and merge thresholds lie in [0, 1]; each rejection names the first failed check, in the source's order |
| ThronionServices.DefaultsAreValid | thronion/src/service/mod.rs:379-384 | the defaults are accepted, with 100 regions and control port 9051 |
| ThronionServices.BadFieldsRejected | thronion/src/service/mod.rs:387-395 | zero regions, or an attack threshold of 1.5, are rejected |
| ThronionServices.UncheckedFieldsIgnored | thronion/src/service/mod.rs:203-221 | configurations agreeing on the four checked fields validate alike |
| ThronionServices.ThronionService.constructor | thronion/src/service/mod.rs:333-342 | keeps the configuration and is not running |
| ThronionServices.ThronionService.IsRunning | thronion/src/service/mod.rs:355-357 | the running flag |
| ThronionServices.ThronionService.Start | thronion/src/service/mod.rs:360-364 | the flag becomes true, the configuration is kept |
| ThronionServices.ThronionService.Stop | thronion/src/service/mod.rs:367-371 | the flag becomes false, the configuration is kept |
| ThronionServices.Lifecycle | thronion/src/service/mod.rs:404-415 | not running when new, running after start, stopped after stop |
| CircuitMonitors.Track | ophanion-main/src/circuit_monitor.rs:21-32 | the tracked circuit is stored under its id and every other entry comes from the old map unchanged |
| CircuitMonitors.TrackKeepsKeys | ophanion-main/src/circuit_monitor.rs:21-32 | tracking keeps every entry keyed by its own circuit id |
| CircuitMonitors.RemoveKeepsOthers | ophanion-main/src/circuit_monitor.rs:40-42 | removing an id keeps every other entry and the keying |
| CircuitMonitors.InsertSize | ophanion-main/src/circuit_monitor.rs:31 | an insertion adds at most one entry |
| CircuitMonitors.RemoveSize | ophanion-main/src/circuit_monitor.rs:25-28 | removing a present key drops exactly one entry |
| CircuitMonitors.TrackStaysWithinCapacity | ophanion-main/src/circuit_monitor.rs:21-32 | with a capacity of at least 1 the map never exceeds it |
| CircuitMonitors.TrackBelowCapacityKeepsOthers | ophanion-main/src/circuit_monitor.rs:21-32 | below capacity nothing is evicted |
| CircuitMonitors.RetrackAtCapacityCanShrink | ophanion-main/src/circuit_monitor.rs:23-31 | at capacity re-tracking a present circuit may evict another one, shrinking the map |
| CircuitMonitors.CircuitMonitor.constructor | ophanion-main/src/circuit_monitor.rs:13-18 | an empty map with the given capacity |
| CircuitMonitors.CircuitMonitor.TrackCircuit | ophanion-main/src/circuit_monitor.rs:21-32 | at capacity some entry is evicted and reported, then the circuit is inserted |
| CircuitMonitors.CircuitMonitor.GetCircuit | ophanion-main/src/circuit_monitor.rs:35-37 | present exactly when the id is a key, with that entry |
| CircuitMonitors.CircuitMonitor.RemoveCircuit | ophanion-main/src/circuit_monitor.rs:40-42 | only that id is removed; a missing id changes nothing |
| CircuitMonitors.CircuitMonitor.CircuitCount | ophanion-main/src/circuit_monitor.rs:45-47 | the number of entries |
| ResonantAbsorbers.Count | QRADIANCE-main/src/resonance/absorber.rs:103-111 | the total and exactly one of absorbed and forwarded grow by one |
| ResonantAbsorbers.CountKeepsBalance | QRADIANCE-main/src/resonance/absorber.rs:99-114 | counted packets keep absorbed + forwarded equal to the total |
| ResonantAbsorbers.Efficiency | QRADIANCE-main/src/resonance/absorber.rs:147-152 | 0 before any packet, and in [0, 1] for balanced counters |
| ResonantAbsorbers.FalsePositives | QRADIANCE-main/src/resonance/absorber.rs:155-160 | non-negative, 0 while nothing was absorbed, at most 1 when the legitimate count is at most the absorbed count |
| ResonantAbsorbers.Ratio | QRADIANCE-main/src/resonance/absorber.rs:151 | a quotient of non-negative counts is non-negative, gives the numerator back, and is at most 1 for a smaller numerator |
| ResonantAbsorbers.RatesAreQuotients | QRADIANCE-main/src/resonance/absorber.rs:147-160 | each rate times its denominator is its numerator |
| ResonantAbsorbers.EfficiencyExample | QRADIANCE-main/src/resonance/absorber.rs:294-304 | 95 absorbed of 100 is an efficiency of 0.95 |
| ResonantAbsorbers.Sigmoid | QRADIANCE-main/src/resonance/absorber.rs:84-86 | strictly inside (0, 1), one half at 0, at least one half for non-negative inputs |
| ResonantAbsorbers.Reciprocal | QRADIANCE-main/src/resonance/absorber.rs:85 | 1/d for d > 1 lies in (0, 1), and is at least one half for d <= 2 |
| ResonantAbsorbers.DotProperties | QRADIANCE-main/src/resonance/absorber.rs:73-77 | the zipped inner product is symmetric and 0 for a zero field |
| ResonantAbsorbers.ThresholdStep | QRADIANCE-main/src/resonance/absorber.rs:119-127 | the stepped threshold lies in [-10, 10] |
| ResonantAbsorbers.ThresholdStepMonotone | QRADIANCE-main/src/resonance/absorber.rs:122-126 | a non-negative energy never raises an in-range threshold, and a zero step keeps it |
| ResonantAbsorbers.ThresholdStepChanges | QRADIANCE-main/src/resonance/absorber.rs:249-257 | an energy of 100 at rate 0.01 moves 0.5 to 0.499 |
| ResonantAbsorbers.Ema | QRADIANCE-main/src/resonance/absorber.rs:137-143 | length kept, entries past the spectrum untouched, weight 0 changes nothing |
| ResonantAbsorbers.EmaStaysInRange | QRADIANCE-main/src/resonance/absorber.rs:142 | a weight in [0, 1] keeps blended entries within the bounds of field and spectrum |
| ResonantAbsorbers.EmaFullWeight | QRADIANCE-main/src/resonance/absorber.rs:142 | weight 1 copies the spectrum over the zipped length |
| ResonantAbsorbers.ResonantAbsorber.constructor | QRADIANCE-main/src/resonance/absorber.rs:34-45 | 13 zero fields of the spectrum size, every threshold 0.5, zero counters |
| ResonantAbsorbers.ResonantAbsorber.ResonanceScore | QRADIANCE-main/src/resonance/absorber.rs:66-81 | the sigmoid of the inner product minus the node's threshold, strictly inside (0, 1) |
| ResonantAbsorbers.ResonantAbsorber.ZeroFieldScore | QRADIANCE-main/src/resonance/absorber.rs:66-81 | a zero field scores sigma(-theta), at least one half for a non-positive threshold |
| ResonantAbsorbers.ResonantAbsorber.ShouldAbsorbExtremes | QRADIANCE-main/src/resonance/absorber.rs:91-94 | an epsilon of at least 1 absorbs every packet, one at or below 0 none |
| ResonantAbsorbers.ResonantAbsorber.UpdateThreshold | QRADIANCE-main/src/resonance/absorber.rs:119-127 | one clamped step on that node's threshold only |
| ResonantAbsorbers.ResonantAbsorber.ProcessPacket | QRADIANCE-main/src/resonance/absorber.rs:99-114 | absorbed exactly when the score is below epsilon; the counters and, on absorption, the node threshold are updated, and balance is kept |
| ResonantAbsorbers.ResonantAbsorber.LearnLegitimatePattern | QRADIANCE-main/src/resonance/absorber.rs:132-144 | the node's field becomes the moving average with the spectrum; other fields are untouched |
| ResonantAbsorbers.ResonantAbsorber.AbsorptionEfficiency | QRADIANCE-main/src/resonance/absorber.rs:147-152 | the counters' efficiency, in [0, 1] when balanced |
| ResonantAbsorbers.ResonantAbsorber.FalsePositiveRate | QRADIANCE-main/src/resonance/absorber.rs:155-160 | the counters' false-positive rate |
| ResonantAbsorbers.ResonantAbsorber.ResetStats | QRADIANCE-main/src/resonance/absorber.rs:163-165 | zero counters, fields and thresholds untouched |
| ResonantAbsorbers.DefaultAbsorber | QRADIANCE-main/src/resonance/absorber.rs:168-172 | 256 spectrum bins and learning rate 0.01 |
| ResonantAbsorbers.TwoPacketsCounted | QRADIANCE-main/src/resonance/absorber.rs:276-291 | two packets through fresh counters give a total of 2, split between absorbed and forwarded |
| ResonantAbsorbers.ResonantAbsorber.ShouldAbsorb | QRADIANCE-main/src/resonance/absorber.rs:91-94 | true exactly when the node's resonance score is strictly below epsilon |
| SpectralFingerprints.Signal | thronion/src/resonance/spectrum.rs:29-32 | fft_size samples in [0, 1]: each byte over 255, zeros past the packet |
| SpectralFingerprints.Normalize | thronion/src/resonance/spectrum.rs:46-51 | each power over the total when the total exceeds 1e-10, otherwise 1/fft_size |
| SpectralFingerprints.SumNonneg | thronion/src/resonance/spectrum.rs:46 | a sum of non-negative powers is non-negative |
| SpectralFingerprints.EntryAtMostSum | thronion/src/resonance/spectrum.rs:48 | a non-negative power is at most the total |
| SpectralFingerprints.NormalizedIsDistribution | thronion/src/resonance/spectrum.rs:46-51 | non-negative powers normalise to entries in [0, 1] summing to 1, in both branches |
| SpectralFingerprints.UniformSumsToOne | thronion/src/resonance/spectrum.rs:50 | the uniform fallback is a distribution |
| SpectralFingerprints.Negated | thronion/src/resonance/spectrum.rs:59 | every entry negated |
| SpectralFingerprints.DescendingOrder | thronion/src/resonance/spectrum.rs:54-59 | every index exactly once, ordered by descending power |
| SpectralFingerprints.TopCount | thronion/src/resonance/spectrum.rs:60 | min(5, len) |
| SpectralFingerprints.Dominant | thronion/src/resonance/spectrum.rs:60 | min(5, len) indices |
| SpectralFingerprints.DominantAreStrongest | thronion/src/resonance/spectrum.rs:54-60 | distinct valid indices in descending power, ties by index, and no index left out has more power than one kept; on equal power the lower index is kept |
| SpectralFingerprints.GapGrows | thronion/src/resonance/spectrum.rs:59-60 | a strictly increasing index sequence grows by at least one per position |
| SpectralFingerprints.EqualPowersKeepIndexOrder | thronion/src/resonance/spectrum.rs:59-60 | equal powers keep index order, so the lowest indices are dominant |
| SpectralFingerprints.Significant | thronion/src/resonance/spectrum.rs:76 | the entries above 1e-15, at most 1 when the input is |
| SpectralFingerprints.PLogP | thronion/src/resonance/spectrum.rs:77 | each term p ln p |
| SpectralFingerprints.EntropyNonneg | thronion/src/resonance/spectrum.rs:73-79 | on entries in [0, 1] the entropy is non-negative |
| SpectralFingerprints.EntropyAppend | thronion/src/resonance/spectrum.rs:73-79 | an appended entry at or below 1e-15 changes nothing; one above it subtracts its own p ln p |
| SpectralFingerprints.PLogPAppend | thronion/src/resonance/spectrum.rs:77 | the terms of an appended entry are appended |
| SpectralFingerprints.SignificantOfPeak | thronion/src/resonance/spectrum.rs:76 | a single-peak spectrum keeps only its peak |
| SpectralFingerprints.PLogPOfOne | thronion/src/resonance/spectrum.rs:77 | 1 ln 1 is 0 |
| SpectralFingerprints.PeakedSpectrumHasZeroEntropy | thronion/src/resonance/spectrum.rs:205-214 | all power in one bin gives zero entropy |
| SpectralFingerprints.Compute | thronion/src/resonance/spectrum.rs:25-70 | a power-of-two size; fft_size powers forming a distribution, min(5, fft_size) > 0 dominant indices, a non-negative entropy |
| SpectralFingerprints.Products | thronion/src/resonance/spectrum.rs:85-90 | the element-wise products |
| SpectralFingerprints.ProductsPrefix | thronion/src/resonance/spectrum.rs:85-90 | products of prefixes are the prefix of the products |
| SpectralFingerprints.ProductsWithSelf | thronion/src/resonance/spectrum.rs:92-97 | a vector's products with itself sum to its sum of squares |
| SpectralFingerprints.Similarity | thronion/src/resonance/spectrum.rs:82-110 | 0 when either norm is below 1e-10, and for an all-zero spectrum |
| SpectralFingerprints.SimilaritySymmetric | thronion/src/resonance/spectrum.rs:82-110 | the order of the arguments does not matter |
| SpectralFingerprints.SimilarityNonneg | thronion/src/resonance/spectrum.rs:82-110 | non-negative powers are never negatively similar |
| SpectralFingerprints.SelfSimilarityIsOne | thronion/src/resonance/spectrum.rs:217-224 | a fingerprint that is not silent is fully similar to itself |
| SpectralFingerprints.BotIsFlat | thronion/src/resonance/spectrum.rs:113-116 | a fingerprint is classified Bot exactly when it is flat at 0.9 ln n, the test of spectrum.rs:145; flatness at a threshold carries over to lower ones |
| SpectralFingerprints.FourthPower | thronion/src/resonance/spectrum.rs:135 | a fourth power is non-negative |
| SpectralFingerprints.Deviations2 | thronion/src/resonance/spectrum.rs:121-124 | the squared deviations, non-negative |
| SpectralFingerprints.Deviations4 | thronion/src/resonance/spectrum.rs:132-135 | the fourth-power deviations, non-negative |
| SpectralFingerprints.Variance | thronion/src/resonance/spectrum.rs:120-126 | a non-negative variance |
| SpectralFingerprints.FourthMoment | thronion/src/resonance/spectrum.rs:132-137 | a non-negative fourth moment |
| SpectralFingerprints.SpectralKurtosis | thronion/src/resonance/spectrum.rs:119-140 | 0 below a variance of 1e-10, and never below -3 |
| SpectralFingerprints.ConstantSpectrumHasZeroKurtosis | thronion/src/resonance/spectrum.rs:128-130 | equal entries have no variance and zero kurtosis |
| SpectralFingerprints.ClassifyTraffic | thronion/src/resonance/spectrum.rs:143-157 | Bot exactly when the entropy exceeds 0.9 ln(len); Suspicious exactly when not Bot, the first dominant index is at least 10 and the kurtosis exceeds 2 in magnitude; Legitimate otherwise |
| SpectralFingerprints.SilentPacketIsUniform | thronion/src/resonance/spectrum.rs:47-51 | the empty packet has the uniform spectrum |
| SpectralFingerprints.FlatFingerprintIsNeverSuspicious | thronion/src/resonance/spectrum.rs:241-255 | equal power everywhere keeps the lowest dominant indices and zero kurtosis, so never Suspicious |
| SpectralFingerprints.SilentPacketIsNeverSuspicious | thronion/src/resonance/spectrum.rs:143-157 | the empty packet's fingerprint is never Suspicious |
| Eigenstate.NewRegion | thronion/src/mandorla/eigenstate.rs:28-37 | a positive radius is required; centres and radius are kept and no intersection is cached |
| Eigenstate.ComputeIntersection | thronion/src/mandorla/eigenstate.rs:40-54 | returns the intersection state normalise(sqrt(F) c1 + sqrt(1 - F) c2) and caches it as Some; centres and radius are unchanged |
| Eigenstate.DegenerateRegionContainsCentre | thronion/src/mandorla/eigenstate.rs:57-62 | a region whose centres coincide contains its centre |
| Eigenstate.WideRegionContainsAll | thronion/src/mandorla/eigenstate.rs:57-62 | a radius of at least 1 contains every state |
| Eigenstate.Project | thronion/src/mandorla/eigenstate.rs:70-81 | without a cached intersection, the normalised average of the centres |
| Eigenstate.ProjectFallbackIgnoresState | thronion/src/mandorla/eigenstate.rs:76-80 | the fallback projection does not depend on the state projected |
| Eigenstate.Convolve | thronion/src/mandorla/eigenstate.rs:173-182 | without a cached intersection the block itself |
| Eigenstate.CountContaining | thronion/src/mandorla/eigenstate.rs:147 | at most the number of regions |
| Eigenstate.MandorlaOperator.constructor | thronion/src/mandorla/eigenstate.rs:97-102 | no regions, recursion level 0 |
| Eigenstate.MandorlaOperator.AddRegion | thronion/src/mandorla/eigenstate.rs:105-107 | the region is appended; the level is kept |
| Eigenstate.MandorlaOperator.RecursiveFusion | thronion/src/mandorla/eigenstate.rs:112-139 | exactly the first min(max_depth, len) regions get their intersection cached, in index order; the level becomes that count, unchanged when it is 0; the result is the fused state |
| Eigenstate.FuseRegions | thronion/src/mandorla/eigenstate.rs:117-136 | the loop stops after min(max_depth, len) steps; the regions visited carry their cached intersection and the rest are untouched; the state is the fold of the fusion steps over those intersections |
| Eigenstate.MandorlaOperator.MandorlaDensity | thronion/src/mandorla/eigenstate.rs:142-149 | 0 without regions, otherwise the containing count over the number of regions, in [0, 1] |
| Eigenstate.MandorlaOperator.CheckInvarianceReflexiveSymmetric | thronion/src/mandorla/eigenstate.rs:154-159 | the invariance check is reflexive and symmetric |
| Eigenstate.Intersection | thronion/src/mandorla/eigenstate.rs:40-54 | normalise(sqrt(F) c1 + sqrt(1 - F) c2) with F the fidelity of the centres |
| Eigenstate.Contains | thronion/src/mandorla/eigenstate.rs:57-62 | 1 - fidelity to each centre is at most the radius |
| Eigenstate.FuseStep | thronion/src/mandorla/eigenstate.rs:128-134 | fusion step k: normalise((1 - w) current + w intersection) with w = 1/(k + 2) |
| Eigenstate.Fuse | thronion/src/mandorla/eigenstate.rs:117-136 | the state after n fusion steps over the first n regions' intersections |
| Eigenstate.CachedPrefix | thronion/src/mandorla/eigenstate.rs:119-125 | the first n regions carry their computed intersection, the rest are unchanged |
| Eigenstate.MandorlaOperator.CheckInvariance | thronion/src/mandorla/eigenstate.rs:154-159 | the two densities differ by strictly less than 1e-6 |
| Metatron.ListsMatch | QRADIANCE-main/src/core/metatron.rs:58-100 | the three literal lists hold exactly the pairs of the reference relation |
| Metatron.ListedIsIrreflexive | QRADIANCE-main/src/core/metatron.rs:38-105 | every listed pair joins two distinct nodes below 13 |
| Metatron.CountTrue | QRADIANCE-main/src/core/metatron.rs:110 | the count of true entries is at most the length |
| Metatron.CountTrueAppend | QRADIANCE-main/src/core/metatron.rs:110 | an appended entry adds one exactly when it is true |
| Metatron.CountTrueStep | QRADIANCE-main/src/core/metatron.rs:110 | a suffix's count is its first entry plus the rest |
| Metatron.EmptyAdjacency | QRADIANCE-main/src/core/metatron.rs:36 | a 13 x 13 all-false matrix |
| Metatron.Link | QRADIANCE-main/src/core/metatron.rs:74-75 | exactly the entries (i, j) and (j, i) become true |
| Metatron.LinkAll | QRADIANCE-main/src/core/metatron.rs:73-76 | an entry is true afterwards exactly when it was before or some listed pair joins it in either direction |
| Metatron.DegreeMatrix | QRADIANCE-main/src/core/metatron.rs:108-112 | each row's count of neighbours on the diagonal, zero elsewhere |
| Metatron.Laplacian | QRADIANCE-main/src/core/metatron.rs:115-116 | D - A with A read as 1.0 / 0.0 |
| Metatron.LaplacianPrefixSum | QRADIANCE-main/src/core/metatron.rs:115-116 | a Laplacian row's prefix sum is the diagonal share minus the true entries so far |
| Metatron.LaplacianRowSumsToZero | QRADIANCE-main/src/core/metatron.rs:270-278 | without self-loops every Laplacian row sums to 0 |
| Metatron.NeighborsFrom | QRADIANCE-main/src/core/metatron.rs:128-130 | as many entries as true positions from j on, each a true position from j on, ascending |
| Metatron.NeighborsFromComplete | QRADIANCE-main/src/core/metatron.rs:128-130 | every true position from j on is listed |
| Metatron.RowCountMatches | QRADIANCE-main/src/core/metatron.rs:110 | the true entries of a row suffix are the reference neighbours there |
| Metatron.DegreeOfEachNode | QRADIANCE-main/src/core/metatron.rs:110 | degree 12 at the centre, 5 on the hexagon, 8 on the cube |
| Metatron.UpperCountMatches | QRADIANCE-main/src/core/metatron.rs:148-154 | the pairs i < j counted from row i on are those of the reference relation |
| Metatron.UpperCount | QRADIANCE-main/src/core/metatron.rs:146-156 | the constructed relation has 45 unordered edges |
| Metatron.GroupsMakeAdjacent | QRADIANCE-main/src/core/metatron.rs:38-105 | after all six groups an entry is true exactly when the pair is adjacent |
| Metatron.LinkCenterAndRing | QRADIANCE-main/src/core/metatron.rs:38-55 | an entry is true exactly when the centre and ring loops join the pair |
| Metatron.LinkLists | QRADIANCE-main/src/core/metatron.rs:57-105 | the three list loops add exactly their pairs, both ways |
| Metatron.BuildAdjacency | QRADIANCE-main/src/core/metatron.rs:35-105 | the constructed matrix is exactly the Metatron relation |
| Metatron.CountUpperPairs | QRADIANCE-main/src/core/metatron.rs:146-156 | the double loop counts the true entries above the diagonal |
| Metatron.AsUsize | QRADIANCE-main/src/core/metatron.rs:136 | `as usize` floors a non-negative value and saturates a negative one to 0 |
| Metatron.MetatronGraph.constructor | QRADIANCE-main/src/core/metatron.rs:35-123 | the adjacency is the Metatron relation, with D and L derived from it |
| Metatron.MetatronGraph.HasEdge | QRADIANCE-main/src/core/metatron.rs:140-143 | the entry is the relation, symmetric, and false on the diagonal |
| Metatron.MetatronGraph.Degree | QRADIANCE-main/src/core/metatron.rs:134-137 | the row's true count: 12, 5 or 8 by node type |
| Metatron.MetatronGraph.Neighbors | QRADIANCE-main/src/core/metatron.rs:126-131 | exactly the adjacent nodes, ascending, as many as the degree |
| Metatron.MetatronGraph.CountEdges | QRADIANCE-main/src/core/metatron.rs:146-156 | the above-diagonal count, which is 45 |
| Metatron.MetatronGraph.NodeKind | QRADIANCE-main/src/core/metatron.rs:190-197 | Center exactly for 0, Hexagon exactly for 1..6, Cube exactly for 7..12 |
| Metatron.MetatronGraph.Symmetric | QRADIANCE-main/src/core/metatron.rs:259-267 | the adjacency is symmetric and has no self-loops |
| Metatron.MetatronGraph.CenterReachesAll | QRADIANCE-main/src/core/metatron.rs:252-256 | the centre has degree 12 and neighbours 1..12 |
| Metatron.MetatronGraph.HexagonRingClosed | QRADIANCE-main/src/core/metatron.rs:304-312 | the ring 1-2-3-4-5-6-1 is closed |
| Metatron.MetatronGraph.DegreeAndLaplacianRows | QRADIANCE-main/src/core/metatron.rs:270-278 | D holds the degree on its diagonal and every Laplacian row sums to 0 |
| Metatron.MetatronGraph.NodeKindByDegree | QRADIANCE-main/src/core/metatron.rs:315-321 | node types are told apart by degree: 12, 5, 8 |
| Metatron.MetatronGraph.DocumentedEdgeCountDisagrees | QRADIANCE-main/src/core/metatron.rs:246-249 | the groups list 46 pairs, one of them twice, so `count_edges` differs from the documented 46 |
| DynamicTripolarLogic.New | QRADIANCE-main/src/core/dtl.rs:32-44 | psi and rho in [0, 1] are required, and the fields are kept |
| DynamicTripolarLogic.Oscillatory | QRADIANCE-main/src/core/dtl.rs:75-84 | psi 0.5, rho the amplitude, a frequency not within 1e-10 of 0 |
| DynamicTripolarLogic.Classify | QRADIANCE-main/src/core/dtl.rs:87-97 | each class holds exactly when its own condition does |
| DynamicTripolarLogic.ConstructorsClassify | QRADIANCE-main/src/core/dtl.rs:165-188 | l0 is L0, l1 is L1, an oscillator is LD |
| DynamicTripolarLogic.FrequencyMakesDynamic | QRADIANCE-main/src/core/dtl.rs:87-97 | a frequency not within 1e-10 of 0 makes the state LD |
| DynamicTripolarLogic.Evolve | QRADIANCE-main/src/core/dtl.rs:109-122 | poles unchanged; LD keeps psi and omega and gets rho (1 + sin(omega dt)) clamped into [0, 1] |
| DynamicTripolarLogic.EvolveKeepsClass | QRADIANCE-main/src/core/dtl.rs:109-122 | well-formedness and the pole classes are kept, and so is LD with a non-zero frequency |
| DynamicTripolarLogic.OscillatorStaysDynamic | QRADIANCE-main/src/core/dtl.rs:197-201 | an oscillator stays LD and well-formed under any sequence of steps |
| DynamicTripolarLogic.SquareZero | QRADIANCE-main/src/core/dtl.rs:125-130 | a zero square has a zero base |
| DynamicTripolarLogic.SquaredDistance | QRADIANCE-main/src/core/dtl.rs:126-129 | non-negative |
| DynamicTripolarLogic.HammingDistance | QRADIANCE-main/src/core/dtl.rs:125-130 | non-negative, and zero exactly when the squared distance is |
| DynamicTripolarLogic.SquareOfDifferenceSymmetric | QRADIANCE-main/src/core/dtl.rs:126-129 | squared differences are symmetric |
| DynamicTripolarLogic.HammingDistanceIsMetricLike | QRADIANCE-main/src/core/dtl.rs:125-130 | symmetric, and zero exactly on identical states |
| DynamicTripolarLogic.NullPole | QRADIANCE-main/src/core/dtl.rs:49-55 | psi, rho and omega all 0; also the `Default` of dtl.rs:154-158 |
| DynamicTripolarLogic.UnitPole | QRADIANCE-main/src/core/dtl.rs:60-66 | psi and rho 1, omega 0 |
| DynamicTripolarLogic.InformationCapacity | QRADIANCE-main/src/core/dtl.rs:102-104 | log2(3), through the log2 oracle |
| Omega5Operators.RemEuclidFacts | thronion/src/operators/omega5.rs:40-41 | the representative x - floor(x/m) m lies in [0, m) and names the angle x |
| Omega5Operators.RemEuclid | thronion/src/operators/omega5.rs:40-41 | a value in [0, m) naming the same angle, and a value already in range is kept |
| Omega5Operators.RemEuclidPeriodic | thronion/src/operators/omega5.rs:40-41 | whole periods do not change the representative |
| Omega5Operators.RemEuclidOfSum | thronion/src/operators/omega5.rs:54-55 | reducing before adding gives the representative of the sum |
| Omega5Operators.NewState | thronion/src/operators/omega5.rs:35-43 | psi, rho and omega kept, both phases reduced into [0, 2 pi) naming the same angles, in-range phases kept |
| Omega5Operators.EvolveTorus | thronion/src/operators/omega5.rs:49-57 | psi, rho and omega kept; each phase advanced by its frequency times dt, reduced onto the torus |
| Omega5Operators.EvolveTorusComposes | thronion/src/operators/omega5.rs:49-57 | two steps are one step of the summed length |
| Omega5Operators.EvolveTorusWholeTurns | thronion/src/operators/omega5.rs:49-57 | whole turns of both phases leave a state on the torus where it was |
| Omega5Operators.TorusStepFromDefault | thronion/src/operators/omega5.rs:309-316 | from the default, theta moves to 1 and phi to 1.5 |
| Omega5Operators.VectorNorm | thronion/src/operators/omega5.rs:98 | non-negative, zero exactly for the zero vector |
| Omega5Operators.NewRotation | thronion/src/operators/omega5.rs:97-104 | an axis norm above 1e-10 is required; the angle is kept and the axis divided by its norm |
| Omega5Operators.RotationAxisIsUnit | thronion/src/operators/omega5.rs:102 | the stored axis has length 1 |
| Omega5Operators.RotatePreservesLength | thronion/src/operators/omega5.rs:108-114 | with a unit axis component the plane rotation keeps u^2 + v^2 |
| Omega5Operators.ApplyPsiRho | thronion/src/operators/omega5.rs:107-117 | both outputs are the rotated pair clamped into [0, 1] |
| Omega5Operators.ApplyPsiOmega | thronion/src/operators/omega5.rs:120-129 | psi is clamped into [0, 1]; the frequency is the rotated value, unclamped |
| Omega5Operators.ZeroAngleIsIdentity | thronion/src/operators/omega5.rs:107-129 | a zero angle leaves in-range pairs as they are |
| Omega5Operators.QuarterTurnMixesPsiAndRho | thronion/src/operators/omega5.rs:331-338 | the quarter turn about x maps (1, 0) strictly inside (0, 1) x (0, 1) |
| Omega5Operators.UniformScaling | thronion/src/operators/omega5.rs:144-149 | lambda kept and every energy equal to the given one |
| Omega5Operators.UniformScalingIsGlobalFactor | thronion/src/operators/omega5.rs:152-157 | a uniform operator multiplies every amplitude by one positive factor exp(lambda e) |
| Omega5Operators.NewWormhole | thronion/src/operators/omega5.rs:231-245 | both nodes below 13 and an edge between them are required; the operator joins two distinct adjacent nodes |
| Omega5Operators.WormholeMatrix | thronion/src/operators/omega5.rs:259-264 | the identity with kappa at (from, to) and (to, from) |
| Omega5Operators.WormholeMatrixSymmetric | thronion/src/operators/omega5.rs:259-264 | symmetric with a unit diagonal |
| Omega5Operators.MatVecAtFrom | thronion/src/operators/omega5.rs:252 | row `from` of the matrix product is a_from + kappa a_to |
| Omega5Operators.MatVecAtTo | thronion/src/operators/omega5.rs:253 | row `to` of the matrix product is a_to + kappa a_from |
| Omega5Operators.MatVecElsewhere | thronion/src/operators/omega5.rs:249-253 | every other amplitude is kept |
| Omega5Operators.TransferIsMatrixProduct | thronion/src/operators/omega5.rs:248-264 | `apply` multiplies the amplitudes by `matrix` before normalising |
| Omega5Operators.CentreTransferReachesNodeOne | thronion/src/operators/omega5.rs:360-370 | the transfer from the centre to node 1 with kappa 0.5 puts 0.5 on node 1 of the basis state |
| Omega5Operators.CheckIsMonotone | thronion/src/operators/omega5.rs:280-293 | a passing check survives a larger Betti number or gap and a smaller gradient; the four cases of the source's test |
| Omega5Operators.DefaultState | thronion/src/operators/omega5.rs:77-81 | the default state is new(0.5, 0.5, 0, 0, 0): psi and rho 0.5, frequency and both phases 0 |
| Omega5Operators.Rotate | thronion/src/operators/omega5.rs:107-129 | the shared plane rotation (c u - s a v, s a u + c v) with c and s the cosine and sine of the half angle; its length law is RotatePreservesLength |
| Omega5Operators.ApplyScaling | thronion/src/operators/omega5.rs:152-157 | each amplitude multiplied by exp(lambda e_i), then normalised; UniformScalingIsGlobalFactor states its uniform case |
| Omega5Operators.Transfer | thronion/src/operators/omega5.rs:248-253 | a_from + kappa a_to and a_to + kappa a_from, both read from the old amplitudes, every other amplitude kept; TransferIsMatrixProduct ties it to `matrix` |
| Omega5Operators.ApplyWormhole | thronion/src/operators/omega5.rs:248-256 | the transferred amplitudes passed through the state normalisation |
| Omega5Operators.DefaultGuards | thronion/src/operators/omega5.rs:280-286 | Betti number at least 1, spectral gap at least 0.1, coherence gradient at most 0.01 |
| Omega5Operators.Check | thronion/src/operators/omega5.rs:289-293 | true exactly when all three guards hold, with >= on the Betti number and the gap and <= on the gradient; CheckIsMonotone states its monotonicity |
| NullpointOperators.NewNullpoint | thronion/src/operators/nullpoint.rs:29-37 | the iteration count is stored as given |
| NullpointOperators.StatusMeaning | thronion/src/operators/nullpoint.rs:147-169 | Valid exactly when all guards hold; one violation per failed guard, each with its value, in checking order |
| NullpointOperators.Validate | thronion/src/operators/nullpoint.rs:147-169 | the pushes build that status; Valid exactly when all guards hold |
| NullpointOperators.ValidatorMatchesDefaultGuards | thronion/src/operators/nullpoint.rs:137-144 | the validator's bounds accept exactly what the default topological guards accept, with a ten-iteration operator |
| NullpointOperators.ValidatorExamples | thronion/src/operators/nullpoint.rs:270-294 | (2, 0.5, 0.005) passes; each guard broken alone is reported alone |
| NullpointOperators.ConditionalReset | thronion/src/operators/nullpoint.rs:172-187 | reset exactly when a guard fails; otherwise the state unchanged |
| NullpointOperators.DefaultNullpoint | thronion/src/operators/nullpoint.rs:113-118 | an operator of ten iterations |
| NullpointOperators.NewValidator | thronion/src/operators/nullpoint.rs:137-144 | the fixed bounds 1.0, 0.1 and 0.01 with a ten-iteration nullpoint operator |
| NullpointOperators.Violations | thronion/src/operators/nullpoint.rs:148-162 | one violation per failed bound, each carrying the measured value, in the order Betti, gap, gradient |
| NullpointOperators.Status | thronion/src/operators/nullpoint.rs:164-168 | Valid when no violation was collected, otherwise Violated with the collected list |
| TemporalCrystals.NewBlock | QRADIANCE-main/src/mandorla/tic.rs:28-36 | the fields are kept and the hash is computed from the state, so a new block verifies |
| TemporalCrystals.TamperedBlockFails | QRADIANCE-main/src/mandorla/tic.rs:57-60 | replacing the state by one of a different hash breaks verification |
| TemporalCrystals.Similarity | QRADIANCE-main/src/mandorla/tic.rs:63-65 | the fidelity of the states, in [0, 1], symmetric, and 1 for equal states |
| TemporalCrystals.AllVerifyAppend | QRADIANCE-main/src/mandorla/tic.rs:123-126 | after an append every block verifies exactly when all did before and the new one does |
| TemporalCrystals.MeanStep | QRADIANCE-main/src/mandorla/tic.rs:110-113 | one weighted step of a running mean gives the mean of one more value |
| TemporalCrystals.CompositeIsMean | QRADIANCE-main/src/mandorla/tic.rs:101-118 | the 1/(i + 1) weights make the composite the arithmetic mean of the block amplitudes |
| TemporalCrystals.MeanStepAt | QRADIANCE-main/src/mandorla/tic.rs:110-113 | one component of a composite step keeps the running mean |
| TemporalCrystals.CompositeOfIdenticalBlocks | QRADIANCE-main/src/mandorla/tic.rs:101-118 | blocks with equal amplitudes compose to those amplitudes |
| TemporalCrystals.PairsBeforeClosedForm | QRADIANCE-main/src/mandorla/tic.rs:135-148 | the pairs counted row by row number i (2n - i - 1) / 2 |
| TemporalCrystals.RowSumBounds | QRADIANCE-main/src/mandorla/tic.rs:138-143 | one row's similarity sum lies in [0, row length], and equals it for identical states |
| TemporalCrystals.PairSumBounds | QRADIANCE-main/src/mandorla/tic.rs:137-144 | the summed similarity lies in [0, pair count], and equals it for identical states |
| TemporalCrystals.CoherenceBounds | QRADIANCE-main/src/mandorla/tic.rs:129-149 | the coherence lies in [0, 1], and is exactly 1 when every block holds the same state |
| TemporalCrystals.PairCount | QRADIANCE-main/src/mandorla/tic.rs:146 | there are n (n - 1) / 2 pairs, positive for n >= 2 |
| TemporalCrystals.DivideBounded | QRADIANCE-main/src/mandorla/tic.rs:148 | a sum in [0, p] over p lies in [0, 1], and is 1 when it equals p |
| TemporalCrystals.FirstNear | QRADIANCE-main/src/mandorla/tic.rs:152-156 | none exactly when no block is within tolerance; otherwise the first index that is |
| TemporalCrystals.WindowMembers | QRADIANCE-main/src/mandorla/tic.rs:159-164 | a block is in the window exactly when it is one of the blocks and stamped within [t1, t2] |
| TemporalCrystals.WindowAppend | QRADIANCE-main/src/mandorla/tic.rs:159-164 | filtering distributes over concatenation, so insertion order is kept |
| TemporalCrystals.WindowAllOutside | QRADIANCE-main/src/mandorla/tic.rs:159-164 | blocks all outside the window give nothing |
| TemporalCrystals.WindowAllInside | QRADIANCE-main/src/mandorla/tic.rs:159-164 | blocks all inside the window are all kept |
| TemporalCrystals.TimelineWindow | QRADIANCE-main/src/mandorla/tic.rs:314-324 | on a timeline stamped 0, 1, 2, ... the window [lo, hi] is the run lo .. hi, hi - lo + 1 blocks |
| TemporalCrystals.TimelineOutside | QRADIANCE-main/src/mandorla/tic.rs:314-324 | the blocks before lo and after hi fall outside |
| TemporalCrystals.TimelineInside | QRADIANCE-main/src/mandorla/tic.rs:314-324 | the blocks lo .. hi fall inside |
| TemporalCrystals.TemporalCrystal.constructor | QRADIANCE-main/src/mandorla/tic.rs:83-89 | no blocks and no cached state |
| TemporalCrystals.TemporalCrystal.AddBlock | QRADIANCE-main/src/mandorla/tic.rs:92-96 | the block is appended and the cached state is dropped |
| TemporalCrystals.TemporalCrystal.ComputeCrystalState | QRADIANCE-main/src/mandorla/tic.rs:101-118 | with no blocks the default basis state and the cache left alone; otherwise the normalised composite, cached as Some |
| TemporalCrystals.TemporalCrystal.AddVerifiedBlock | QRADIANCE-main/src/mandorla/tic.rs:287-296 | appending a verifying block keeps every block verifying |
| TemporalCrystals.TemporalCrystal.Coherence | QRADIANCE-main/src/mandorla/tic.rs:129-149 | the double loop computes the mean pair similarity, 1 for fewer than two blocks |
| TemporalCrystals.PairTotals | QRADIANCE-main/src/mandorla/tic.rs:134-142 | the double loop ends with the similarity summed over all pairs i < j and their number as the count |
| TemporalCrystals.RowTotals | QRADIANCE-main/src/mandorla/tic.rs:138-141 | the inner loop adds block i's similarity to every later block, once per later block |
| TemporalCrystals.CoherenceFromTotals | QRADIANCE-main/src/mandorla/tic.rs:144-148 | with two or more blocks the count is positive and total / count is the coherence |
| TemporalCrystals.TemporalCrystal.FindBlockAtTime | QRADIANCE-main/src/mandorla/tic.rs:152-156 | none exactly when no block is near the time; otherwise a block that is |
| TemporalCrystals.TemporalCrystal.ExtractTimeWindow | QRADIANCE-main/src/mandorla/tic.rs:159-164 | exactly the blocks within [t1, t2] |
| TemporalCrystals.Lookup | QRADIANCE-main/src/mandorla/tic.rs:225-227 | present exactly for a key of the map, with its value |
| TemporalCrystals.MetadataLaws | QRADIANCE-main/src/mandorla/tic.rs:340-348 | a stored value is found, a later one replaces it, other keys are unaffected |
| TemporalCrystals.ConvergeSteps | QRADIANCE-main/src/mandorla/tic.rs:197-212 | none without blocks, otherwise between 1 and max_iterations |
| TemporalCrystals.IdenticalBlocksConvergeAtOnce | QRADIANCE-main/src/mandorla/tic.rs:327-337 | identical blocks are coherent, so converge takes one step |
| TemporalCrystals.LivingCrystal.constructor | QRADIANCE-main/src/mandorla/tic.rs:188-194 | an empty temporal crystal, level 0, no metadata |
| TemporalCrystals.LivingCrystal.Converge | QRADIANCE-main/src/mandorla/tic.rs:197-212 | the level grows by the number of recomputations; blocks and metadata are unchanged |
| TemporalCrystals.LivingCrystal.SetMetadata | QRADIANCE-main/src/mandorla/tic.rs:220-222 | the key is inserted or overwritten |
| TemporalCrystals.LivingCrystal.GetMetadata | QRADIANCE-main/src/mandorla/tic.rs:225-227 | present exactly for a stored key, with its value |
| TemporalCrystals.VerifyIntegrity | QRADIANCE-main/src/mandorla/tic.rs:57-60 | the hash of the current state equals the stored hash |
| TemporalCrystals.AllVerify | QRADIANCE-main/src/mandorla/tic.rs:123-126 | every block verifies its integrity |
| TemporalCrystals.Composite | QRADIANCE-main/src/mandorla/tic.rs:107-113 | block 0's amplitudes, then for block i >= 1 the combination (1 - w) composite + w block with w = 1/(i + 1); CompositeIsMean states its meaning |
| TemporalCrystals.CoherenceOf | QRADIANCE-main/src/mandorla/tic.rs:129-149 | 1 for fewer than two blocks, otherwise the summed pair similarity over n (n - 1) / 2; CoherenceBounds states its range |
| TemporalCrystals.CoherenceIsMean | QRADIANCE-main/src/mandorla/tic.rs:129-149 | with two or more blocks the coherence is the pair sum over the pair count, in [0, 1], and 1 when every pair is fully similar |
| TemporalCrystals.Window | QRADIANCE-main/src/mandorla/tic.rs:159-164 | the blocks stamped within [t1, t2] in the order added, never more than the blocks; WindowMembers states its membership |
| TemporalCrystals.TemporalCrystal.CheckInvariance | QRADIANCE-main/src/mandorla/tic.rs:123-126 | every stored block verifies |
| TemporalCrystals.LivingCrystal.VerifyMandorlaCondition | QRADIANCE-main/src/mandorla/tic.rs:215-217 | the temporal crystal's invariance check |
| ThronionKernel.RemoveAt | thronion/src/thronion/mod.rs:569 | `Vec::remove`: one element fewer, those before j kept, those after it shifted down by one |
| ThronionKernel.IsAttackRegion | thronion/src/thronion/mod.rs:149-151 | an attack probability strictly above 0.7 |
| ThronionKernel.ClassifySpec | thronion/src/thronion/mod.rs:345-377 | (false, 0.0, None) on an empty store; otherwise the best score, the index of its first strict maximum and the verdict best > 0.3 and that region an attack region |
| ThronionKernel.LearnSpec | thronion/src/thronion/mod.rs:380-424 | with best score above 0.5 the matched region updated in place; otherwise a new region appended below capacity, or written over the first least-confident region at capacity |
| ThronionKernel.CollectPairs | thronion/src/thronion/mod.rs:535-548 | the nested loops over i < j collect exactly CoherentPairs of the store |
| ThronionKernel.MergedProbability | thronion/src/thronion/mod.rs:557-563 | the sample-count weighted mean of the two attack probabilities |
| ThronionKernel.ApplyMerges | thronion/src/thronion/mod.rs:551-570 | the pairs applied from the last to the first, each by one MergeOne |
| ThronionKernel.MergeSpec | thronion/src/thronion/mod.rs:534-572 | the collected coherent pairs applied in reverse to the store |
| ThronionKernel.StepsUntilStable | thronion/src/thronion/mod.rs:524-529 | after step k, stop when the gradient is below 0.05 or k is 10, otherwise take another step |
| ThronionKernel.OptimizeSteps | thronion/src/thronion/mod.rs:513-531 | no step when the gradient is at most 0.1, else the loop's StepsUntilStable count from 1 |
| ThronionKernel.EnhancedKernel.IsStable | thronion/src/thronion/mod.rs:580-582 | the delta kernel's gradient is below the fixed 0.05 |

## Left out

- IEEE 754 arithmetic (rounding, NaN, infinities) is not modelled: `f64` is an exact `real`, and `usize`/`u64` counters are unbounded `nat`s, since no counter in the core comes near its width.
- `sqrt`, `exp`, `ln`, `log2`, `sin`, `cos`, the FFT (rustfft), the fidelity, inner product and normalisation of quantum states, and the classical-to-quantum embedding are parameters. Only the bounds the code relies on are stated about them.
- The panic of `QuantumState::new` on a zero-norm vector is not modelled, because normalisation is an oracle.
- The `DefaultHasher` block hash of the temporal crystal is a parameter. That distinct states hash differently is not assumed, so only the conditional `TamperedBlockFails` is stated.
- `Instant::elapsed` in the spectral engine is the `elapsed` parameter.
- Random generation (`QuantumState::random`, `initialize_random_fields` of the absorber) is left out. Fields are given, not drawn.
- The Thronion delta kernel (Hamiltonian, Kuramoto and Mandorla evolution) is an oracle. It is a counter of evolutions and a coherence gradient per evolution, and `is_stable(e)` compares that gradient with `e`.
- The `RwLock`/`Arc` wrappers of the cluster and threshold, and the `DashMap` of the circuit monitor, are modelled as single-threaded state. Interleavings are not modelled.
- The `HashMap` order that decides the circuit monitor's eviction victim is not modelled: any present entry may be evicted.
- `MetatronGraph::algebraic_connectivity` and `spectral_gap` need an eigenvalue solver, and are not modelled.
- The `Display` impls are not modelled.
- `State5D::is_ergodic` (a floating-point rationality test), `DampingOperator` and `ScalingOperator::matrix` are numeric matrix builders, and are not modelled. `ScalingOperator::apply` and `WormholeOperator::apply` are modelled only up to the normalisation oracle.
- `NullpointOperator::apply`, the sterile projector, `is_sterile` and `sterile_overlap` are left out: they are iterative complex linear algebra. The reset of `conditional_reset` is a parameter.
- `MandorlaRegion::overlap_measure` is a fidelity oracle lookup, and is not modelled.
- `ConversionUtils` of the Thronion kernel is not modelled.
- The metrics (`ThronionMetrics`, the Prometheus registry), `from_file` TOML loading, and the service's `config()`/`metrics()` getters are not modelled.
- The temporal crystal's `mandorla_regions` field is never read or written by the modelled operations, and is omitted.
- QRADIANCE-main/src/resonance/spectrum.rs is not part of this model. The absorber receives the packet's spectrum as a parameter.
- SpectralEngines.Signature: its contract states only the length 128. The layout is stated by `SignatureLayout`, and the zero case by `ZeroSignatureUnchanged`.
- SpectralEngines.Entropy: the upper bound log2 10 is not stated, because `log2` is an oracle.
- SpectralFingerprints.Similarity: the upper bound 1 (Cauchy-Schwarz) is not stated. Only the zero cases, symmetry (`SimilaritySymmetric`), non-negativity (`SimilarityNonneg`) and self-similarity (`SelfSimilarityIsOne`) are.
- SpectralFingerprints.EntropyNonneg: the upper bound ln n is not stated, because `ln` is an oracle.
- DynamicTripolarLogic.InformationCapacity: the value log2 3 ≈ 1.585 is the oracle's, so no numeric bound is stated.
- ResonantAbsorbers.Sigmoid: the source's test bounds at ±10 are not restated. The contract gives the open interval (0, 1) and the midpoint.
- Omega5Operators.UniformScalingIsGlobalFactor: it states the scaled amplitudes before normalisation. That the normalised state is unchanged as a ray is the normalisation oracle's.
- NullpointOperators.NewNullpoint: only the iteration count is stored. The sterile projector the source also builds is left out, as above.
- Eigenstate.Project: the contract states only the fallback branch. The branch with a cached intersection goes through the normalisation and inner-product oracles.
- Eigenstate.Convolve: the contract states only the fallback branch. The branch with a cached intersection goes through the normalisation oracle.
- ThronionKernel.Kernel.Learn: it requires `max_regions > 0`. With a capacity of 0 the source indexes `regions[0]` on an empty vector and panics. `LearnSpec` states what happens in every other case.
- ThronionKernel.ToVector: it requires a positive byte count, because the source takes ln(total_bytes / 1024), which is negative infinity at 0.
- Where the source stops on an `assert!` or a `panic!`, the model states that condition as a `requires`: a caller that breaks it gets no result in either program. This covers the positive radius of `MandorlaRegion::new` (`Eigenstate.NewRegion`), the ranges of `DTLState::new` and `ld_oscillatory` (`DynamicTripolarLogic.New`, `DynamicTripolarLogic.Oscillatory`), the axis norm of `QuaternionRotation::new` (`Omega5Operators.NewRotation`), the node range and the edge of `WormholeOperator::new` (`Omega5Operators.NewWormhole`), the node index of `node_type` (`Metatron.MetatronGraph.NodeKind`), the node indices of `has_edge`, `degree` and `neighbors` (`Metatron.MetatronGraph.HasEdge`, `Degree`, `Neighbors`), the node index of the absorber's operations, the power-of-two size of `SpectralFingerprint::compute` (`SpectralFingerprints.Compute`), the equal lengths of `similarity` (`SpectralFingerprints.Similarity` and its lemmas), and the positive optimisation interval of the enhanced kernel's `classify`, whose `%` panics on 0 (`ThronionKernel.EnhancedKernel.Classify`).
- Benches, examples, `main.rs`, the Tor control-port stub and the `mod.rs` re-export files are outside the core.

## Findings

| source | as written | input that shows it | evidently intended | confidence | as-written member | corrected member |
|---|---|---|---|---|---|---|
| QRADIANCE-main/src/core/metatron.rs:15 | `NUM_EDGES` is 46, and the creation test at line 248 expects `count_edges()` to equal 46; the module comment at line 3 claims a third count, 78, which is every pair of the 13 nodes | the graph built by `MetatronGraph::new`: the pair (11, 7) of the cube edges (line 90) and the pair (7, 11) of the space diagonals (line 100) are the same undirected edge, so the 46 listed pairs give 45 edges | the constant and the test should agree with the construction: 45 edges (or a 46th distinct pair listed) | not executed | Metatron.MetatronGraph.DocumentedEdgeCountDisagrees | Metatron.MetatronGraph.CountEdges |
