# Verification of the Melissa core

Melissa runs many simulations at the same time and computes field statistics online in a parallel server. This
project models the parts of it that have to agree with each other and proves that they do. It is written in Dafny 4;
`dafny verify dfyconfig.toml` checks everything.

## What is modelled

* **Redistribution and gathering** (`Partition`, `Redistribution`, `Gathering`): N client ranks cut their blocks into
  slices for M server ranks with two loops that walk both partitions together; no index travels with a slice. The server
  keeps one stream per (field, client rank) and puts the streams back together when it writes.
* **Statistics** (`Samples`, `GeneralMoments`, `Dispersion`, `Variance`, `Covariance`): the one-pass updates, the
  pairwise merges and the folds over ranks, against two-pass definitions. Numbers are exact reals.
* **The statistics server** (`Bitset`, `StreamStats`, `ExactlyOnce`, `Checkpoint`, `Recovery`, `StatServer`,
  `ServerRuns`, `Completion`, `Settling`, `ServerRecovery`, and `ServerProcess` with the packed bitmaps and the loops of
  the code): a state machine with the steps data message, timeout check, job message, checkpoint, crash with restart.
  `ServerClock` says from the events of a run what the server takes a simulation for and when it reports it as hung.
* **The whole chain** (`FieldOutput`): what ends up in the written mean and variance of a field.
* **The launcher** (`Launcher`, `Protocol`, `Resubmission`, `HungSimulations`, `StudyEnd`): groups, the messenger, the
  state checker, the two-phase fault-tolerance scan and the first-in first-out channel of server notices, interleaved with
  the server state machine; when a group is submitted again, from the server's clock to the batch scheduler; and what the
  launcher's view of the end of a study means for the written statistics.
* **Supporting parts** (`Vector`, `PythonServer`, `Grid`, `Ports`), with `Sequences` and `Radix` for what several modules
  use.

Methods and classes follow the loops and records of the source; each is tied to a function on values, and the lemmas are
about those functions.

## What came out

The following hold only under the stated conditions; the conditions are exact where the table says "if and only if".

* The message list is exact only if no empty client rank comes before a non-empty one, and cutting stays inside the
  blocks only if no empty rank other than rank 0 does. Trailing empty ranks, which the server partition produces, are
  fine. Client rank 0 sends to server rank 0 even if it has no points.
* Central moments are not saved. The written variance of a time step is wrong after a restart until the step gets another
  sample (or if its samples were all equal, in which case it is right). Raw moments, counts, extrema and threshold
  counts recover (`VarianceIsLost` is such a run).
* A stream that had no data at the checkpoint reads back a size of zero and stays empty after the restart; a stream that
  gets no message after the restart is missing from the output. A restarted server that takes a checkpoint before a
  stream's first new message overwrites the stream's file with a size of zero: its data is gone for good, with no second
  crash (`CheckpointLosesExactly`, `DataIsLost`). `ServerRuns.Life` says from the events alone which streams are alive.
* `check_simu_state` skips streams that are not initialised. If a stream is initialised after a simulation was counted as
  finished, the simulation is counted again and the main loop can end early.
* `update_variance` merges sums of squared deviations. On the unbiased variances that `increment_variance` produces it
  is exact only in degenerate cases. `update_covariance` uses an integer quotient.
* `increment_sobol_martinez` passes the number of earlier groups instead of the current one, so its covariances drop the
  second group and use shifted weights. They are right only if the products of deviations balance (`MartinezExact`).
* The written variance is the second central moment. It is the unbiased variance only where all simulations agree.
* At a restart the server ranks take the least saved status of every simulation. One that finished on some ranks only is
  taken back on all of them (`RanksAgree`).
* A simulation that finishes after the last checkpoint is unknown to a restarted server, while the launcher keeps its group
  as FINISHED and never submits it again: the study waits for it (`FinishedIsForgotten`, `ForgottenForever`).
* With more than one simulation per group, the first finished simulation marks the whole group FINISHED.
* A vector of capacity 0 cannot grow, since doubling keeps it at 0; adding an item asks for a positive capacity.
* The ports of a Sobol group depend on the sample only if its master is known as "localhost". Otherwise two groups with
  masters on one node bind the same ports. Without MELISSA_MASTER_NODE_NAME, ranks other than 0 of a worker may compute
  another port than their master (`WorkerMeetsMaster`).

Hypotheses used throughout: `learning == 0`, CHECK_SIMU_DECONNECTION off, payloads with data, simulation ids below the
sampling size, checkpoints read from the directory they are written to. For completion: no stream is initialised behind
a finished simulation (`Completion.Settled`, which follows from the order of the events alone, `Settling.Prompt`). For
the launcher's FINISHED: one simulation per group, no server crash, no dropped group (`Protocol.Orderly`, `Protocol.NoDrop`).

## Model

| member | source | states |
|---|---|---|
| `Partition.WalkFindsOwner` | api/melissa_api.c:344-365 | while no rank but rank 0 is empty, the if/else walk gives every point to the rank whose interval holds it |
| `Partition.AttributedIsOwner` | api/melissa_api.c:344-365 | without a gap, a point is attributed to a rank if and only if the rank owns it |
| `Partition.EmptyRankIsGivenAPoint` | api/melissa_api.c:350-355 | with a gap, some rank of size zero is given a point |
| `Partition.BalancedIsPartition` | api/melissa_api.c:736-742 | the server sizes add up to the vector size and empty server ranks come last |
| `Redistribution.SendCounts` | api/melissa_api.c:344-371 | send_counts[j] on client r is the number of points both own |
| `Redistribution.DisplacementIsOffset` | api/melissa_api.c:384-389 | sdispls[j] is the global start of server block j, clamped to the block of the client and relative to it |
| `Redistribution.SliceIsShared` | api/melissa_api.c:1337-1374 | the slice at sdispls/send_counts holds exactly the points client and server share, in global order |
| `Redistribution.SlicesInBlocksExactly` | api/melissa_api.c:344-389 | every slice stays inside its client block if and only if no empty rank other than rank 0 comes before a non-empty one |
| `Redistribution.ListedPairs` | api/melissa_api.c:373-381 | a (push, pull) pair is listed exactly if some point is attributed to both ranks, or for the entry the list starts with |
| `Redistribution.ListShape` | api/melissa_api.c:391-435 | the list is in lexicographic order without repeats and has at most N + M - 1 entries; it does not depend on the rank that computes it |
| `Redistribution.MessageListExactness` | api/melissa_api.c:343-435 | the list holds exactly the pairs whose index intervals meet, if and only if no empty client rank comes before a non-empty one |
| `Redistribution.EmptyRankBetween` | api/melissa_api.c:350-355 | clients of sizes 1, 0, 1 and one server: a slice leaves its block and the list is not exact |
| `Redistribution.PullsAreSharers` | api/melissa_api.c:1341-1386 | a client sends, in increasing order and once each, to the servers it shares points with (and client 0 always to server 0) |
| `Redistribution.NextPoint` | api/melissa_api.c:346-365 | the shared if/else: rank and count after the next point, and whether a new rank was opened |
| `Redistribution.CountPoints` | api/melissa_api.c:343-382 | first loop: send_counts, total_nb_messages and local_nb_messages are those of the attribution |
| `Redistribution.FillMessageList` | api/melissa_api.c:391-435 | second loop: it fills exactly the slots the first loop counted, with the message list |
| `Redistribution.FieldPattern.constructor` | api/melissa_api.c:732-745 | the server partition is the balanced one of the global vector; counts start at zero |
| `Redistribution.FieldPattern.CommNToMInit` | api/melissa_api.c:319-436 | counts, displacements and lists of one client rank, as in the lemmas above |
| `Redistribution.FieldPattern.ComputeDisplacements` | api/melissa_api.c:384-389 | sdispls are the running sums of send_counts |
| `Redistribution.FieldPattern.ConnectPushers` | api/melissa_api.c:907-922 | socket j is connected to the server of the j-th message of this rank, and there are local_nb_messages of them |
| `Redistribution.FieldPattern.CutSlice` | api/melissa_api.c:1341-1357 | the slice cut from a block, wherever the block starts in its buffer, is the shared part of the global vector |
| `Redistribution.FieldPattern.CutVectors` | api/melissa_api.c:1345-1355 | one message holds the shared part of the own vector and, with Sobol groups, of every other member of the group |
| `Redistribution.GatherGroup` | api/melissa_api.c:1306-1314 | the master of a Sobol group holds the local vector of member k in slot k of its buffer |
| `Redistribution.FieldPattern.Send` | api/melissa_api.c:1329-1386 | packet e goes to the e-th server of the list and carries the shared points of the vectors of all group members |
| `Gathering.CopyStreams` | server/output/melissa_output.c:188-196 | the local buffer is the concatenation of the streams in client order, empty ones skipped |
| `Gathering.ReceiveBlock` | server/output/melissa_output.c:51-58 | a received or copied block lands at its offset and leaves what is before it |
| `Gathering.GatherData` | server/output/melissa_output.c:38-75 | rank 0 ends up with the concatenation of all blocks in server order |
| `Gathering.ServerHoldsItsBlock` | server/output/melissa_output.c:188-196 | the streams of server j in client order are its block of the global vector |
| `Gathering.GatheringRebuildsVector` | server/output/melissa_output.c:159-207 | gathering the shared parts rebuilds the global vector, for values of any type |
| `Gathering.EndToEnd` | api/melissa_api.c:319-436 | cutting, sending along the lists, storing per (server, client) and gathering is the identity on the global vector of every group member |
| `Gathering.GatheredPartsAreShared` | server/output/melissa_output.c:159-207 | conversely, parts of the right sizes that gather to a vector are the shared parts of it |
| `Bitset.OnlyPos` | common/melissa_utils.c:499-553 | set_bit and clear_bit change the tested value of their position and of no other one |
| `Bitset.BitsetRefinesSet` | common/melissa_utils.c:499-553 | over (T+31)/32 words the operations are insert, remove and member on a set of positions below T |
| `Bitset.SetBitInPlace` | common/melissa_utils.c:499-502 | the word array after set_bit |
| `Bitset.ClearBitInPlace` | common/melissa_utils.c:521-524 | the word array after clear_bit |
| `GeneralMoments.IncrementMeanIsRawMoment` | server/stats/general_moments.c:41-56 | one step turns the p-th raw moment of n - 1 samples into that of n samples |
| `GeneralMoments.UpdateMeanIsRawMoment` | server/stats/general_moments.c:58-75 | merging two p-th raw moments gives that of the concatenated samples, also when one side is empty |
| `GeneralMoments.ThetasAreCentral` | server/stats/general_moments.c:168-187 | the theta formulas turn raw moments into the second, third and fourth central moments |
| `GeneralMoments.FoldCellIsMoments` | server/stats/general_moments.c:142-188 | after any samples, at every order up to four, every allocated field holds its two-pass value and every other one is zero |
| `GeneralMoments.MergeIsConcatenation` | server/stats/general_moments.c:213-278 | update_moments of two states is the state of the concatenated samples, at every order |
| `GeneralMoments.FoldCellPermutation` | server/stats/general_moments.c:142-188 | the state depends on the multiset of samples only |
| `GeneralMoments.FoldedMeanTimesCount` | server/stats/general_moments.c:142-188 | m1 times the count is the sum of the samples |
| `GeneralMoments.VarianceOfTheta` | server/stats/general_moments.c:436-446 | compute_variance on an accumulated state is the two-pass unbiased variance |
| `GeneralMoments.MomentsRecord.constructor` | server/stats/general_moments.c:95-120 | arrays up to the order, all zero: the state of no samples |
| `GeneralMoments.MomentsRecord.IncrementMomentsMean` | server/stats/general_moments.c:41-56 | the first vect_size entries advance, the others stay |
| `GeneralMoments.MomentsRecord.IncrementMoments` | server/stats/general_moments.c:142-188 | every mesh point advances by one sample; the counter is common |
| `GeneralMoments.MomentsRecord.ComputeThetas` | server/stats/general_moments.c:168-187 | the central moments are recomputed from the raw ones |
| `GeneralMoments.MomentsRecord.UpdateMomentsMean` | server/stats/general_moments.c:58-75 | the merged means of two arrays |
| `GeneralMoments.MomentsRecord.UpdateMoments` | server/stats/general_moments.c:213-278 | every mesh point holds the merge of the two records |
| `GeneralMoments.MomentsRecord.ComputeVariance` | server/stats/general_moments.c:436-446 | every entry is the unbiased variance of the samples accumulated there |
| `Dispersion.MeanStepIsMean` | server/stats/mean.c:85-100 | the one-pass mean is the two-pass mean, from no samples on |
| `Dispersion.MergedMeanIsMean` | server/stats/mean.c:125-141 | the merged mean is that of the concatenated samples |
| `Dispersion.CodeviationsStep` | server/stats/covariance.c:130-132 | one more pair adds (x - new mean) * (y - old mean) to the sum of products of deviations |
| `Dispersion.CodeviationsMerge` | server/stats/variance.c:186-193 | the sum of products of deviations of two joined lists: both sums plus n1 n2 / n times the products of mean differences |
| `Variance.FoldIsUnbiased` | server/stats/variance.c:104-119 | the one-pass mean and variance equal the two-pass mean and unbiased variance after any samples |
| `Variance.ComputedVarianceAgrees` | server/stats/general_moments.c:436-446 | compute_variance gives the increment_variance result on the same samples |
| `Samples.MomentIsUnbiased` | server/output/melissa_output.c:218-226 | the second central moment, which is what is written, is the unbiased variance if and only if all samples are equal |
| `Samples.MomentIsNotUnbiased` | server/output/melissa_output.c:218-226 | on the samples 0 and 2 it is not |
| `Variance.UpdateMergesSquares` | server/stats/variance.c:174-201 | update_variance is exact on sums of squared deviations |
| `Variance.UpdateOfUnbiased` | server/stats/variance.c:186-193 | on unbiased variances it is exact if and only if a side is empty, or both variances are zero and the sides are single samples or have equal means |
| `Variance.UpdateOfUnbiasedFails` | server/stats/variance.c:186-193 | two ranks with the samples 0 and 2 each: the merge of unbiased variances is wrong |
| `Variance.PoolIsIteratedUpdate` | server/stats/variance.c:314-319 | the rank-0 fold equals iterating update_mean and update_variance |
| `Variance.PoolingIsConcatenation` | server/stats/variance.c:296-325 | folding any number of ranks gives the mean and the squared deviations of all their samples |
| `Variance.PoolingIgnoresRankOrder` | server/stats/variance.c:296-325 | renumbering the ranks, rank 0 included, does not change the result |
| `Variance.MeanRecord.constructor` | server/stats/mean.c:57-62 | a mean of no samples |
| `Variance.MeanRecord.IncrementMean` | server/stats/mean.c:85-100 | the first vect_size means advance by one sample |
| `Variance.MeanRecord.UpdateMean` | server/stats/mean.c:125-141 | the merged means and counts of two records |
| `Variance.MergePoint` | server/stats/variance.c:189-193 | one point of update_variance |
| `Variance.PoolPoint` | server/stats/variance.c:316-318 | one point of the rank-0 fold |
| `Variance.VarianceRecord.constructor` | server/stats/variance.c:53-59 | mean and variance of no samples |
| `Variance.VarianceRecord.IncrementMeanAndVariance` | server/stats/variance.c:104-119 | every mesh point advances by one sample |
| `Variance.VarianceRecord.UpdateVariance` | server/stats/variance.c:174-201 | every mesh point holds the merge of the two records |
| `Variance.VarianceRecord.UpdateGlobal` | server/stats/variance.c:279-333 | on rank 0 every mesh point holds the fold over the messages of the other ranks, and the count their sum |
| `Variance.VarianceRecord.ReceiveRank` | server/stats/variance.c:305-319 | one rank is received into the record and pooled into the global buffers |
| `Covariance.FoldJointIsUnbiased` | server/stats/covariance.c:114-136 | the one-pass covariance, which mixes a new with an old mean, is the two-pass unbiased covariance |
| `Covariance.CovarianceIsSymmetric` | server/stats/covariance.c:114-136 | swapping the inputs gives the same covariance |
| `Covariance.CovarianceWithItself` | server/stats/covariance.c:114-136 | on (x, x) it is the result of increment_variance |
| `Covariance.SobolStepAgrees` | server/stats/sobol.c:39-61 | called with the true count, increment_sobol_covariance does what increment_covariance does |
| `Covariance.CodeviationsAsRunning` | server/stats/sobol.c:56-58 | the true sum of products of deviations as a weighted running sum from the second sample on |
| `Covariance.MartinezIsShifted` | server/stats/sobol.c:263-314 | what the Martinez field holds: the second sample dropped, later ones weighted one place too early, divisor n - 2 |
| `Covariance.MartinezOnTwoSamples` | server/stats/sobol.c:263-314 | on two samples the field is the unbiased covariance if and only if one of the variables is constant |
| `Covariance.MartinezExact` | server/stats/sobol.c:263-314 | on three or more samples if and only if 2 (n - 2) times the second product of deviations equals the weighted sum of the later ones |
| `Covariance.ExcessIsPositive` | server/stats/sobol.c:263-314 | in that condition every later sample has a positive weight |
| `Covariance.MartinezFailsOnThree` | server/stats/sobol.c:263-314 | on the samples 0, 2, 1 (paired with themselves) the field is wrong |
| `Covariance.UpdateCovarianceExact` | server/stats/covariance.c:161-182 | update_covariance is exact if and only if n1 n2 is a multiple of n1 + n2 or the means of one variable agree |
| `Covariance.UpdateCovarianceFails` | server/stats/covariance.c:161-182 | two ranks with the single samples 0 and 2: the merged covariance is wrong |
| `Covariance.StepProducts` | server/stats/covariance.c:130-132 | one point of increment_covariance |
| `Covariance.StepSobol` | server/stats/sobol.c:56-58 | one point of increment_sobol_covariance |
| `Covariance.CovarianceRecord.constructor` | server/stats/covariance.c:57-64 | covariance of no samples |
| `Covariance.CovarianceRecord.IncrementCovariance` | server/stats/covariance.c:114-136 | every mesh point advances by one pair; the three counters stay equal |
| `Covariance.CovarianceRecord.UpdateProducts` | server/stats/covariance.c:125-134 | the covariance loop |
| `Covariance.CovarianceRecord.UpdateCovariance` | server/stats/covariance.c:161-182 | every mesh point holds the merge of the two records |
| `Covariance.IncrementSobolCovariance` | server/stats/sobol.c:39-61 | every point advances, or nothing changes when the passed count is at most one |
| `Covariance.MartinezRecord.constructor` | server/stats/sobol.c:122-144 | the record of no samples |
| `Covariance.MartinezRecord.Increment` | server/stats/sobol.c:250-315 | variances, first-order and total-order covariance of one parameter after one more group |
| `StreamStats.AddVectorSummarises` | server/compute_stats.c:70-88 | moments, min/max and threshold counts after one more vector summarise exactly one more sample at every point |
| `StreamStats.AddVectorsSummarises` | server/compute_stats.c:70-144 | the same for the one or two vectors of a message |
| `StreamStats.SummaryPermutation` | server/compute_stats.c:70-88 | equal multisets of samples give equal counts, moments, threshold counts, minima and maxima |
| `ExactlyOnce.ReceiveReflects` | server/server.cxx:649-709 | one message keeps bits equal to arrivals and statistics equal to those of the first arrivals |
| `ExactlyOnce.RunReflects` | server/server.cxx:649-709 | after any messages, duplicates included, the same |
| `ExactlyOnce.ExactlyOnceCount` | server/server.cxx:649-709 | the increment is the number of set bits (twice that with Sobol groups) and each of those simulations was folded in once |
| `ExactlyOnce.MeanTimesCount` | server/compute_stats.c:70-144 | m1 times the increment is the sum of the folded samples |
| `ExactlyOnce.OrderIndependence` | server/server.cxx:649-709 | two deliveries of the same set of messages end with equal bits, moments, minima, maxima and threshold counts |
| `Checkpoint.SaveStepMoments` | server/stats/general_moments.c:311-329 | what save_moments writes for one time step; the central moments are not written |
| `Checkpoint.SaveMoments` | server/stats/general_moments.c:303-330 | the moments of all time steps, in order |
| `Checkpoint.SaveMinMax` | server/stats/min_max.c:137-151 | minima, maxima and the flag of all time steps, in order |
| `Checkpoint.SaveThresholds` | server/stats/threshold.c:124-139 | every threshold followed by its counts, for all time steps in order |
| `Checkpoint.SaveSteps` | server/melissa_io.c:193-197 | number and words of the bitmaps, in order |
| `Checkpoint.SaveStats` | server/melissa_io.c:142-201 | the file of one stream; only a size of zero without data |
| `Checkpoint.ReadMoments` | server/stats/general_moments.c:355-382 | reads back what was saved for every time step, central moments left at zero |
| `Checkpoint.ReadMinMax` | server/stats/min_max.c:176-190 | reads back minima, maxima and flags |
| `Checkpoint.ReadThresholds` | server/stats/threshold.c:167-182 | reads back the threshold counts; the threshold values read are the ones saved |
| `Checkpoint.ReadSteps` | server/melissa_io.c:277-285 | reads back the bitmaps, growing the vector first |
| `Checkpoint.ReadSavedStats` | server/melissa_io.c:226-289 | round trip: a fresh stream reads back the saved one, except for the central moments and for streams without data |
| `Checkpoint.AddVectorsRecover` | server/stats/general_moments.c:142-188 | streams that agree but for central moments stay so, and agree completely after one more sample on top of an old one |
| `Recovery.ThetasVanish` | server/stats/general_moments.c:303-330 | dropping the central moments changes nothing if and only if they are not computed or all samples are equal |
| `Recovery.RunIsStorable` | server/melissa_io.c:142-289 | whatever a run produces can be saved, and what is read back holds the same data |
| `Recovery.RunsStayTogether` | server/server.cxx:592-612 | redelivery keeps a restarted and an uninterrupted stream together |
| `Recovery.RecoveryAgrees` | server/melissa_io.c:142-289 | a stream read back from a checkpoint of h and continued with g holds bits, counts, raw moments, extrema and thresholds of an uninterrupted run over h and g; the central moments of a step agree, and so does the second one at every point, if and only if not computed, or updated since, or of equal samples |
| `Recovery.CrashRecovery` | server/server.cxx:592-612 | so redelivery of at least the lost messages, in any order and with repeats, recovers the stream of any run over the same messages |
| `Recovery.ThetasAreLost` | server/stats/general_moments.c:303-330 | two different values at a checkpoint, then a message for another time step: the central moments are not whole |
| `Recovery.EmptyStreamStaysEmpty` | server/melissa_io.c:226-289 | a stream without data at the checkpoint reads back a size of zero and never accumulates again |
| `ServerRuns.StepFollows` | server/server.cxx:344-885 | every step keeps stream and file of every (field, client) at what the events alone say about them |
| `ServerRuns.StreamFollowsLife` | server/melissa_io.c:142-289 | in every run the events alone decide whether a stream has data, and then it is what was read from the file it was loaded from, continued with the messages since |
| `ServerRuns.CheckpointBeforeReloadLoses` | server/melissa_io.c:150-158 | a checkpoint that a restarted server takes while a stream has no data in memory empties the stream for good |
| `ServerRuns.CheckpointLosesExactly` | server/melissa_io.c:150-158 | and only then |
| `ServerRuns.DataIsLost` | server/melissa_io.c:157-158 | a run in which a stream loses what was saved, with one crash |
| `ServerRuns.RunHolds` | server/server.cxx:344-885 | in every reachable state a stream that is alive holds the data of the messages in its log |
| `ServerRuns.ExactlyOnceAlways` | server/server.cxx:638-709 | in every reachable state, with any checkpoints and crashes, a time step of a stream that is alive counts each simulation of its log once, and m1 times the increment is the sum of their first arrivals |
| `Completion.DataKeepsCompletion` | server/server_helper.c:102-134 | a data message keeps "finished means complete" if and only if no other finished simulation misses a step on a stream it initialises |
| `Completion.SenderAfter` | server/server_helper.c:102-134 | a complete sender stays complete if and only if a stream that its message initialises has all its other steps |
| `Completion.DataKeepsCount` | server/server.cxx:735-760 | a data message keeps nb_finished_simulations exact if and only if its sender was not finished, or initialises no stream, or one on which only the step it brings can be missing |
| `Completion.TimeoutCheckReports` | server/server.cxx:349-368 | the notices of a check name exactly the late running simulations, once each and in order; they become idle, nobody else changes; an alive message exactly if there are none (late is spelled out on status, job and time of the last message) |
| `ServerClock.StatusFollowsEvents` | server/server.cxx:344-885 | in every run, with checks, checkpoints, crashes and new jobs, the events say whether a simulation is idle, running or finished: from its last data message (finished if no time step was missing then, idle if a check gave it up) or the last restart (finished if the ranks agreed); a running one has the time of its last data message on record, and whether a job of it was announced since |
| `ServerClock.RunningHasSent` | server/server.cxx:630 | so the last message time of a running simulation is the arrival time of its last data message, and its job counts as sending if and only if no new job was announced since |
| `ServerClock.CheckReports` | server/fault_tolerance.c:104-128 | after any run, a check at time t reports a simulation if and only if it is running, no job of it was announced since its last data message, and the time of that message plus the limit is below t; reports come once and in order, make idle, and an alive message is sent exactly if there are none |
| `ServerClock.NeverTooEarly` | server/fault_tolerance.c:115-117 | no check at most the limit after the last data message reports a simulation or changes it |
| `ServerClock.ReportedAfterTheLimit` | server/fault_tolerance.c:115-117 | one simulation, one message, limit 100 seconds: for all times of message and check, reported exactly if more than 100 seconds lie between them (concrete configuration) |
| `ServerClock.SaysItsStatus` | server/server.cxx:760-770 | in every run the last notice about a simulation since the server was started says what the server takes it for |
| `StatServer.AgreedFits` | server/melissa_io.c:387-399 | the least statuses over all ranks fit the file of every rank; a simulation is finished in them if and only if it is in all files |
| `Completion.RestartReports` | server/server.cxx:281-306 | after a restart of one rank no stream is in memory and nobody is running; exactly the simulations that the ranks agree on are finished and counted; each is reported once |
| `Completion.FinishedSurvive` | server/server.cxx:281-306 | a checkpoint followed by a restart keeps a finished simulation if and only if the ranks agree on it |
| `Completion.RanksAgree` | server/melissa_io.c:387-399 | the restart of all ranks is possible on every rank and leaves them with the same finished simulations, exactly those that every checkpoint had, and the same count |
| `Completion.StepCompletes` | server/server_helper.c:102-134 | on a settled stream set every step keeps both, and only a crash can take status 2 back |
| `Completion.RunCompletes` | server/server.cxx:735-760 | both in every state of a settled run |
| `Completion.ExitMeansAllComplete` | server/server.cxx:881-885 | the main loop ends on the count only when every bit of every initialised stream is set for every simulation |
| `Completion.EarlyExit` | server/server_helper.c:118-126 | a stream initialised late makes the loop end with nothing of a simulation received (concrete run) |
| `Settling.PromptIsSettled` | server/server_helper.c:102-134 | the set is settled if, on the start and after every restart, all streams get a message before a simulation completes one, checkpoints wait for that, and restarts find all files |
| `Settling.PromptExit` | server/server.cxx:881-885 | then the loop ends only when every bit of every stream is set, no loaded stream is empty, and without a restart none is missing |
| `ServerProcess.ReceiveRecordIsReceive` | server/server.cxx:649-708 | deduplication on packed words refines deduplication on sets |
| `ServerProcess.Server.constructor` | server/server.cxx:266-273 | the initial state of the state machine |
| `ServerProcess.Server.AllStepsSet` | server/server_helper.c:118-130 | the bit scan finds out whether all time steps of a simulation are set |
| `ServerProcess.Server.FieldDone` | server/server_helper.c:110-132 | the scan over the client ranks of one field stops at the first stream with a missing step |
| `ServerProcess.Server.CheckState` | server/server_helper.c:102-134 | the nested scan computes the status of the state machine |
| `ServerProcess.Server.LoadRecord` | server/server.cxx:592-617 | a first message allocates the record, and reads it back after a restart |
| `ServerProcess.Server.UpdateRecord` | server/server.cxx:649-708 | one message on a record |
| `ServerProcess.Server.ReceiveData` | server/server.cxx:553-779 | a data message is the data step of the state machine |
| `ServerProcess.Server.Accumulate` | server/server.cxx:590-709 | its effect on the streams |
| `ServerProcess.Server.UpdateStatus` | server/server.cxx:734-770 | its effect on status, count and notices |
| `ServerProcess.Server.TimeoutStep` | server/server.cxx:349-368 | the timeout part of the loop is the timeout step of the state machine |
| `ServerProcess.Server.CheckTimeouts` | server/fault_tolerance.c:104-128 | late running simulations are flagged and taken back, and counted |
| `ServerProcess.Server.SendTimeouts` | server/fault_tolerance.c:150-173 | one notice per flagged simulation in order; the flags are cleared |
| `ServerProcess.Server.Checkpoint` | server/server.cxx:388-400 | the checkpoint step of the state machine |
| `ServerProcess.Server.Restart` | server/server.cxx:281-306 | the crash and restart step of the state machine, with the least statuses over this rank and the others |
| `ServerProcess.ReduceStatus` | server/melissa_io.c:393-398 | the reduction of one status over the ranks |
| `ServerProcess.Server.ReadSimuStates` | server/melissa_io.c:354-403 | the statuses read, reduced over the ranks |
| `ServerProcess.Server.CountAndReport` | server/server.cxx:282-306 | finished simulations are counted before running ones are taken back; all are reported |
| `ServerRecovery.CrashFreeStream` | server/server.cxx:553-709 | without a crash a stream is the accumulation of the messages delivered to it, whatever else happens |
| `ServerRecovery.RecoveredStream` | server/server.cxx:592-612 | in every run a stream that is alive agrees with an uninterrupted one over its log, with the exact condition for its central moments |
| `ServerRecovery.RunsAgree` | server/server.cxx:649-709 | two runs, with any crashes, whose streams hold the same set of messages end with equal bits, counts, raw moments, extrema and thresholds; if the central moments follow the log in one, they are equal if and only if they do in the other |
| `ServerRecovery.VarianceIsLost` | server/stats/general_moments.c:303-330 | a run with one crash after which the second central moments of a time step are wrong |
| `ServerRecovery.DeliveryOrderDoesNotMatter` | server/server.cxx:649-709 | two crash-free runs that deliver the same set of messages to a stream end with equal bits and statistics |
| `FieldOutput.StreamSamples` | api/melissa_api.c:1341-1386 | the samples at a point of a stream are the values of its simulations (with Sobol groups: of the first two members) at the global point, whatever their order of arrival |
| `FieldOutput.StreamMeans` | server/output/melissa_output.c:188-196 | a stream writes the means of its simulations at the points it shares |
| `FieldOutput.StreamVariances` | server/output/melissa_output.c:218-226 | a stream writes their second central moments |
| `FieldOutput.SentCarriesSlice` | api/melissa_api.c:1341-1386 | a message that its client sent carries the shared points of the vectors of its simulation |
| `FieldOutput.WriteStatistic` | server/output/melissa_output.c:185-207 | copying on every rank and gathering on rank 0 writes the concatenation of all slices |
| `FieldOutput.WrittenMeanIsTheMean` | server/output/melissa_output.c:159-207 | if the clients send the slices of the vectors, the written mean at index k is the mean over the received simulations of their own value at k, with any duplicates, checkpoints, crashes and restarts on any server rank |
| `FieldOutput.WrittenVarianceIsTheta2` | server/output/melissa_output.c:210-238 | in every run the written variance is their second central moment at every index if and only if no stream lacks the central moments that a restart took from it |
| `FieldOutput.CrashFreeIsCurrent` | server/output/melissa_output.c:210-238 | without a crash none does |
| `FieldOutput.RankIsNotCurrent` | server/output/melissa_output.c:210-238 | a run of one rank, one client and one point in which one does |
| `FieldOutput.WrittenIsUnbiased` | server/output/melissa_output.c:218-226 | what was written is the unbiased variance at every index if and only if the simulations agree at every index |
| `FieldOutput.PromptIsFinished` | server/server.cxx:881-885 | a rank whose events are in time and whose streams got a message after the last restart fulfils the hypothesis of the next row |
| `FieldOutput.FinishedStudyWritesMeans` | server/server.cxx:881-885 | when every rank has left its loop, with restarts on statuses that the ranks agree on, the written mean is that over all simulations of the study |
| `Launcher.FinishedTooEarly` | launcher/study.py:138-139 | the first finished member finishes a running group; a member is then unfinished if and only if another one had not finished |
| `Launcher.JobGroup.MultiSimu` | launcher/simulation.py:201-226 | a group that was not submitted, with the next simulation ids |
| `Launcher.JobGroup.Sobol` | launcher/simulation.py:287-316 | a Sobol group that was not submitted, with the ids of its nb_parameters + 2 members |
| `Launcher.JobGroup.Launch` | launcher/simulation.py:146-160 | submitted once more, waiting, job pending |
| `Launcher.JobGroup.Restart` | launcher/simulation.py:241-281 | restart number four and later drop the group instead of submitting it |
| `Launcher.JobGroup.HandleGroupState` | launcher/study.py:133-148 | a group_state message on both kinds of groups |
| `Launcher.JobGroup.Recheck` | launcher/study.py:908-916 | the second look at a group, ten seconds after the first |
| `Launcher.JobGroup.CheckTimeouts` | launcher/study.py:923-941 | the two timeout tests, each of which may restart |
| `Launcher.DecodeMember` | launcher/study.py:134-135 | division and remainder of an id give back group and member; the client decodes sample_id and sobol_rank in the same way |
| `Launcher.CreateGroupList` | launcher/study.py:787-799 | for both kinds of groups the ids handed out in order decode to their group and member |
| `Protocol.StepNotices` | server/server.cxx:734-770 | what one server step says about a simulation: its end is announced by its own last message only, and nothing after it |
| `Protocol.SubmissionsAreBounded` | launcher/simulation.py:241-281 | in every run, with server crashes and drops, a group is submitted once plus at most three times |
| `Protocol.RunAgrees` | launcher/study.py:106-183 | in every orderly run without drops, server, channel and launcher agree on every simulation |
| `Protocol.FinishedGroupIsComplete` | launcher/study.py:128-148 | once a group is FINISHED no timeout (nor other notice) for it is queued, and the server has all its time steps |
| `Protocol.FinishedIsFinal` | launcher/study.py:903-947 | in orderly runs without drops FINISHED is never left |
| `Protocol.FinishedIsLeft` | launcher/study.py:128-148 | in any state of any run, with crashes, drops and any group size, FINISHED is left if and only if a timeout of a member is read, or a status of a Sobol group, or the group is launched first; nothing else submits it |
| `Protocol.FinishedStays` | launcher/study.py:903-949 | so in any run a group stays FINISHED and is not submitted until one of these comes |
| `Protocol.CrashForgets` | launcher/study.py:884-897 | after a server crash the launcher keeps a finished group; the new server has it as finished if and only if the checkpoints agree on it, else it starts over and no timeout is queued |
| `Protocol.ForgottenForever` | launcher/study.py:884-949 | then the group is never submitted again and the server never finishes it, unless its simulation still sends or the server crashes again |
| `Protocol.FinishedIsForgotten` | launcher/study.py:884-897 | a run that ends there: finished after the last checkpoint, server crash (concrete run) |
| `Protocol.StopFindsAllFinished` | launcher/study.py:116-127 | when the server has left its loop and all notices are read, every group is already FINISHED |
| `Protocol.PairFinishesEarly` | launcher/study.py:138-139 | with two simulations per group the group is FINISHED with nothing of the second received (concrete run) |
| `Resubmission.ActionOnGroup` | launcher/study.py:874-941 | for every state, action and group: a group is started again (submitted up to three times, then given up) exactly at a second look that finds it waiting or running, a look that finds it timed out, or waiting for too long with its job running, and a server crash while it is active; the first submission and the scheduler apart, nothing but a notice changes it otherwise |
| `Resubmission.SubmittedExactly` | launcher/simulation.py:241-281 | the exact condition under which the number of submissions grows, by one, and what status, job and number of restarts are then |
| `Resubmission.NoticeOnGroup` | launcher/study.py:128-148 | what reading one notice does to every group: a timeout of a member times the group out, a status counts for the Sobol group, or for the member and by the rule of the code for its group; all others stay |
| `Resubmission.CrashOnGroups` | launcher/study.py:884-897 | after a server crash every active group has one more submission, waiting and pending, or was given up after three restarts; all others are unchanged, so none is active on its old submission |
| `Resubmission.CrashResubmits` | launcher/study.py:884-897 | and in every continuation it has more submissions than before the crash |
| `Resubmission.LostServerResubmits` | launcher/study.py:884-897 | a run with one crash in which a running group is submitted a second time (concrete run) |
| `Resubmission.RunLaunched` | server/fault_tolerance.c:115 | in every run only simulations of submitted groups are running, and only their timeouts are under way |
| `Resubmission.TimeoutIsAnswered` | launcher/study.py:937-941 | in every run, once a timeout of a group is read, the next look at the group submits it again, or gives it up after three restarts, unless a status of it is read in between |
| `Resubmission.EndedJobIsAnswered` | launcher/study.py:898-916 | a group whose job is over while it is waiting or running is started again or given up after the pause if and only if it is still waiting or running then |
| `Resubmission.PauseBegins` | launcher/study.py:898-903 | the main thread pauses over a group only if that is so |
| `Resubmission.SilentJobIsAnswered` | launcher/study.py:923-928 | a submitted group whose job runs but from which nothing is heard in time is started again or given up |
| `HungSimulations.HungIsReported` | server/server.cxx:349-368 | in every run of the protocol a check puts the timeout of a simulation into the channel if and only if it is running and silent, by the events at the server |
| `HungSimulations.HungIsAnswered` | launcher/study.py:937-941 | so the launcher that reads on and looks at its group submits it again or gives it up, from any state of any run |
| `StudyEnd.ServerIsRun` | server/server.cxx:344-885 | in every run of the protocol the server is at the end of a run of its own state machine |
| `StudyEnd.SettledIsOrderly` | launcher/study.py:106-183 | settled server events without a crash make the run of the protocol orderly |
| `StudyEnd.AllFinishedExits` | server/server.cxx:881-885 | when all groups are FINISHED at the launcher, the server has left its main loop |
| `StudyEnd.FinishedGroupsMeanWrittenMeans` | launcher/study.py:128-148 | all groups FINISHED at the launcher, and the other ranks finished, mean that the written mean is that over all simulations of the study |
| `Vector.Vector.constructor` | common/vector.c:24-29 | empty contents, any capacity |
| `Vector.Vector.ResizeVector` | common/vector.c:36-44 | contents are kept; the slots copied are counted |
| `Vector.Vector.VectorAdd` | common/vector.c:46-53 | contents grow by the item at the end; the amortised bound is kept |
| `Vector.Vector.VectorGet` | common/vector.c:63-73 | the item, or NULL outside the contents |
| `Vector.Vector.VectorDelete` | common/vector.c:75-98 | order-preserving removal, nothing outside the contents; the amortised bound is kept |
| `Vector.Vector.ShiftDown` | common/vector.c:84-90 | later items move down by one |
| `Vector.Vector.MovesAreAmortised` | common/vector.c:36-98 | size never exceeds capacity, and resizing copied at most three slots per call |
| `PythonServer.FinishedIsAllSet` | utility/melissa4py/melissa4py/fault_tolerance.py:42-44 | the sum test holds exactly when every mark is set |
| `PythonServer.AcceptedOnce` | utility/melissa4py/melissa4py/server.py:369-375 | between creation and drop a (field, time step) is accepted at most once, in any message sequence |
| `PythonServer.FinishedOnce` | utility/melissa4py/melissa4py/server.py:382-386 | the FINISHED notice is pushed once, when the last mark is set |
| `PythonServer.RecordFollowsMessages` | utility/melissa4py/melissa4py/server.py:311-380 | for every message sequence: the sample size is the first one less the number of drops; a simulation is known if and only if a job message or an in-range data message of it came since its last drop; a mark is set if and only if its data came since |
| `PythonServer.DoneOnMessages` | utility/melissa4py/melissa4py/server.py:393-401 | all_done on the messages alone: enough simulations registered for the sample size less the drops, and all data of each that does not count as crashed has come since its last drop |
| `PythonServer.DropCompletes` | utility/melissa4py/melissa4py/server.py:325-333 | two simulations, all data of one: not done until the other one is dropped (concrete messages) |
| `PythonServer.PushedOnMessage` | utility/melissa4py/melissa4py/server.py:355-386 | what every message makes the server push, on the messages alone: running at the first data without a job message since the last drop, finished when the last data comes |
| `PythonServer.DoneMeansAcceptedOnce` | utility/melissa4py/melissa4py/server.py:393-401 | when all simulations are done, every (field, time step) was accepted once and every end reported once |
| `PythonServer.MelissaServer.constructor` | utility/melissa4py/melissa4py/server.py:44-60 | no simulations, nothing pushed |
| `PythonServer.MelissaServer.HandleLauncherMessage` | utility/melissa4py/melissa4py/server.py:311-333 | creation and drop of a simulation |
| `PythonServer.MelissaServer.HandleSimulationData` | utility/melissa4py/melissa4py/server.py:335-391 | filters, creation, duplicate test, mark and notice; whether the message was accepted |
| `PythonServer.MelissaServer.SumMarks` | utility/melissa4py/melissa4py/fault_tolerance.py:42-44 | the sum over all fields and time steps |
| `PythonServer.MelissaServer.AllDone` | utility/melissa4py/melissa4py/server.py:393-401 | done exactly if enough simulations are known and each is complete or crashed |
| `Grid.UniformMapIsBijective` | examples/fluidsimulation/melissa_learning.py:96-133 | indices below the number of cells and cells inside the grid correspond one to one; everything else maps to None |
| `Grid.GetIndex` | examples/fluidsimulation/melissa_learning.py:116-131 | the loop over the coordinates computes the mixed-radix value, or None outside |
| `Grid.GetCell` | examples/fluidsimulation/melissa_learning.py:105-113 | the loop over the dimensions computes the cell, checked by going back |
| `Grid.RecursorAppends` | examples/fluidsimulation/melissa_learning.py:295-315 | the recursion appends the cell moved by every offset below its prefix |
| `Grid.RecursorIsNeighbourhood` | examples/fluidsimulation/melissa_learning.py:295-315 | every offset in {-1,0,1}^d with at most `changes` non-zeros exactly once, and no other |
| `Grid.EdgeListIsComplete` | examples/fluidsimulation/melissa_learning.py:194-263 | the edge list holds exactly the neighbouring pairs; it is reflexive, symmetric and free of duplicates |
| `Grid.ExtractNeighbours` | examples/fluidsimulation/melissa_learning.py:194-263 | the loops compute that list |
| `Grid.Connect` | examples/fluidsimulation/melissa_learning.py:257-260 | the filter and the inner loop for one cell |
| `Grid.ExtendedIsWellBuilt` | examples/fluidsimulation/melissa_learning.py:86-92 | an entry is listed exactly if the edge of its block is; reflexivity, symmetry and freedom from duplicates are kept |
| `Grid.ExtendNeighbourhood` | examples/fluidsimulation/melissa_learning.py:86-92 | the three loops compute the blocks |
| `Grid.ExtendEdge` | examples/fluidsimulation/melissa_learning.py:89-91 | the block of one edge |
| `Grid.NeighboursOfGrid` | examples/fluidsimulation/melissa_learning.py:317-320 | both calls together |
| `Ports.Allowed` | server/server_helper.c:60-67 | the skip loop ends at the first port that is not forbidden |
| `Ports.CreatePortNumber` | server/server_helper.c:32-74 | the port of one rank |
| `Ports.PortsOfANodeDiffer` | server/server_helper.c:45-73 | ranks of one node get increasing ports; every port after the first of a node avoids the forbidden ones |
| `Ports.NextPortOfANode` | server/server_helper.c:45-73 | the first rank of a node gets the start port, and every other one the first port that is not forbidden above that of the rank before it on the node |
| `Ports.SmallPorts` | api/melissa_api.c:953-957 | the first 900 ports of a group run from 4100 on, slot by slot and rank after rank |
| `Ports.PortNumbersDiffer` | api/melissa_api.c:953-957 | a leading 4 before the decimal digits keeps different numbers different |
| `Ports.BindAll` | api/melissa_api.c:946-961 | the master binds one port for every other member, by the formula that the strcmp guard chooses |
| `Ports.GroupPorts` | api/melissa_api.c:948-984 | two ports are equal if and only if rank and member agree and the formulas use the same sample (none, unless the name is "localhost") |
| `Ports.GroupPortsDiffer` | api/melissa_api.c:953-960 | under one name, ports are equal if and only if rank and member agree and the samples agree or the name is not "localhost" |
| `Ports.MastersCollide` | api/melissa_api.c:957-961 | two groups on one node that is not called "localhost" bind the same port |
| `Ports.WorkerMeetsMaster` | api/melissa_api.c:976-984 | a worker connects to the port that its master bound for it, and to no other port of any rank of the master, if and only if both use the same formula, in terms of environment, node, rank and sample |
| `Ports.WorkerMissesMaster` | api/melissa_api.c:812-831 | without the environment variable the second rank of a worker misses its master (concrete names) |

## Left out

- Message queues, MPI calls and node names: broadcast and gather are operations on sequences, channels are sequences, payloads are values. Losing a message is modelled only by a crash.
- Floating-point rounding and integer overflow of counters: exact reals and unbounded integers.
- Builds without MPI: `local_vect_sizes` then stays zero and nothing is copied at the end.
- `comm_1_to_m_init` and `gatherv_init`: only used for learning, or special cases of the general pattern.
- The Sobol part of checkpoint files and the other two ways (MPI, FlowVR) of gathering a Sobol group.
- Quantiles, skewness, kurtosis, Martinez and Jansen index values, confidence intervals, `min_id` and `max_id`.
- `update_global_mean`: the mean half of `VarianceRecord.UpdateGlobal`, with the same loop.
- Merging two empty states (0/0 in the code): the merges ask for at least one sample, the rank-0 fold for one among its first two ranks.
- Growth of the simulation vectors for ids at or above their size: those loops stop before the id.
- DROP messages and the launcher timeout in the C++ server, and the reduction of the sample by them.
- Server ranks with simulation files of different sizes, and the launcher's messages from ranks other than 0: it listens to rank 0 only.
- That the process ends after a checkpoint on a signal: the checkpoint is modelled, without the guard of the periodic one; any events may follow it.
- A checkpoint that is interrupted half-way, and a server that crashes before its first checkpoint.
- The stop message, which marks all groups FINISHED; `StopFindsAllFinished` says that they are by then.
- User functions of the launcher (launching, cancelling, asking for a job's state): a job's state changes arbitrarily; cancelling has no effect of its own.
- A sampling size that is not a multiple of the batch size, for which the messenger would index a group that does not exist.
- Covariance.MartinezRecord.constructor: has no arrays of index values, which need square roots.
- Covariance.MartinezRecord.Increment: computes variances and covariances, not the index values, which need square roots.
- StreamStats.AddVectorsSummarises: covers moments, extrema and threshold counts; quantiles and Sobol indices are not in the state.
- Checkpoint.SaveMinMax: does not write `min_id` and `max_id`, which are not in the state.
- Checkpoint.ReadMinMax: does not read them.
- Checkpoint.SaveStats: has no quantile and no Sobol section.
- Checkpoint.ReadSavedStats: has none either.
- Protocol.FinishedIsFinal: excludes dropped groups and server crashes; for those `FinishedIsLeft` and `FinishedStays` say exactly when FINISHED is left.
- PythonServer.FinishedOnce: says nothing about a study with no fields or no time steps, in which no message is accepted.
- Clock values: the times of timeout checks are parameters, and which simulations of the Python server crashed is an argument.
- File formats and writers, option parsing, batch spawners, learning, Fortran interfaces.
