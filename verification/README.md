# A model of Meshy's coordination, planning and resume logic

Meshy runs RL training as independent processes that share only a row store, a request
ledger and a state directory. This project models the three parts whose correctness does
not depend on any library, and proves what they promise.

**The GPU-token ring.** Services that share a card hand it over through request rows.
Each manager has a lagging view of the ledger and only the current owner may grant.
`ColocationRing`, `RequestLedger` and `ColocationView` hold the data and the decisions,
`ColocationProtocol` the transition system in which every member's manager takes one small
step at a time (the release callback, closing the own row, writing the grant and adopting
it are separate steps, and calls in progress are an explicit stack), `ColocationInvariant`,
`ColocationFrames` and `ColocationSteps` the inductive invariant, `ColocationSafety`,
`ColocationFairness` and `ColocationOvertaking` the results, `ColocationWitness` the runs
that end where code and documentation disagree. `ColocationStanding` is a second invariant
on top, about a manager's own requests, with the standing request of a fallback member as its
result. `ColocationManager` is the manager object itself, with
its mutable fields, loops and the mutual recursion of its two main methods; its methods are
proved to take exactly protocol steps. Request ids need not be distinct: the fallback ids
of two posters can really coincide, and the results hold nevertheless, with one exception that
says so: a view keeps one record for each id, so `ColocationStanding.PassedByStillAsks` asks
that no other row bears the ids of the member's own fallback requests.

**The dynamic-batching planner and the micro-batch layouts.** `PlanDeal` (sorting and the
boustrophedon deal), `PlanPacking` (first-fit-decreasing) and `Planner` define the plan,
`PlanLoops` computes it with the source's loops, `PlanTheorems` proves cover, symmetry,
denominators and balance. `TensorLayout` and `MicroBatch` build the padded and packed
tensors in place, `LayoutTheorems` relates both to the per-sample definition,
`LossMeaning` shows what the loss of an optimizer step means, and `ScoreGather` re-keys
results to the original rows.

**Gates, pacing and resume.** `RunModel` composes rollout, critic and trainer on one clock
of gate steps, with a gate queue, the row store, per-role shards and a crash between any
two steps, during the dropping of the crash tail included; a run continues through any
number of crashes and resumes. `RunInvariant`, `RunLemmas`, `RunRolloutSteps`,
`RunConsumerSteps` and `RunTheorems` carry the invariant, `RunResults` and `RunResume` the
results, `RunNecessity` builds the runs that show a bound to be exact. `StateStore` is the
shard store with every file operation visible, `RunDisk` connects it to the run, and
`RolloutWorker`, `ConsumerWorkers` and `Retention` are the objects that update the counters
in place. `Wrappers`, `Sequences` and `Arithmetic` are shared vocabulary.

## Where the code and its documentation differ

- `meshy/service/colocation.py:44-48` and the warning at 480-485 say the token goes back to
  the FALLBACK owner. The code returns it to the source of the owner's grant, which is the
  fallback member only when the card came from there (`ColocationWitness.ReturnCanMissTheFallback`,
  a run of every ring such as infer, critic, train, and `ReturnReachesFallbackIff`).
- An owner still holding the genesis grant that releases with nobody asking raises KeyError,
  because the return request is made for the service named "authority"
  (`ColocationWitness.GenesisOwnerCannotRelease`); this is the one failure
  `ColocationFairness.ReleaseOutcome` and `ColocationSafety.ViewsArePrefixes` leave.
- `docs/colocation.md:84` says the manager keeps a standing request for a FALLBACK member. It
  does once a grant between two others has been applied (`ColocationStanding.PassedByStillAsks`),
  but not between the member's own hand-over and the next grant, because `_transfer` applies
  its own grant outside the loop that posts (`ColocationWitness.HandOverPostsNothing`).
- `meshy/worker/rollout.py:682-687` says the groups in flight at a checkpoint are skipped by
  a resume. So are prompts that were fetched and never sent: a gate is only read while a
  prompt waits for its slot, the shard records the position behind the whole batch, and the
  resumed run starts there (`RunResults.ShardForgetsTheOpenBatch`,
  `RunResults.SkippedPromptsStaySkipped`). The pacing counters do rewind exactly.
- `meshy/config.py:50-53` says two retained steps are enough for the shards to intersect.
  That also needs the pacing window to fit: the resume point is the rollout's newest step in
  every run exactly when window + interval <= keep_latest_k * interval
  (`RunNecessity.WindowMustFitTheRetention`). With interval 1, two retained steps and a
  window of 2 the critic can prune the only common step.
- A snapshot always finds exactly (N - 1 + W) windows started, and after a resume the rows
  then in flight are gone. So a resumed run keeps at most one window in flight, whatever W
  is (`RunResults.RolloutIsPaced`).

## Model

| member | source | states |
|---|---|---|
| ColocationRing.Ring.IndexFor | meshy/service/colocation.py:70-74 | the position of a member, and nothing (the KeyError) exactly for strangers |
| ColocationRing.DistanceForm | meshy/service/colocation.py:401 | the modular ring distance is one conditional addition, always below the ring size |
| ColocationRing.DistanceSplits | meshy/service/colocation.py:401 | a stop on the way to a goal leaves exactly the remaining hops |
| RequestLedger.SortIsSorted | meshy/service/colocation.py:310 | the scan order is a permutation sorted by grant sequence, ungranted rows first |
| RequestLedger.SnapshotIsExact | meshy/transferqueue/colocation.py:183-257 | a scan holds exactly the decoded rows of the ledger, each once decodable from its own position |
| ColocationView.SelectedIsUnique | meshy/service/colocation.py:412-413 | the sort key leaves at most one first candidate, so the choice is deterministic |
| ColocationView.TextBelowIsDictionary | meshy/service/colocation.py:412-413 | the last part of the sort key is dictionary order |
| ColocationView.DecimalReads | meshy/service/colocation.py:354 | the sequence number in a fallback id reads as that number, so ids of one service differ when the positions do |
| ColocationManager.Ledger.CreateRequest | meshy/transferqueue/colocation.py:178-181 | every earlier row stays as it was and a scan finds the request in a row of its own, open and ungranted, under the returned handle |
| ColocationManager.Ledger.GrantRequest | meshy/transferqueue/colocation.py:259-268 | no other row changes, and a scan finds the request granted, with exactly this grant |
| ColocationManager.Ledger.CloseRequest | meshy/transferqueue/colocation.py:270-278 | no other row changes, and a scan finds the request closed with the grant the handle remembers, so a stale handle would lose it |
| ColocationManager.Ledger.Scan | meshy/transferqueue/colocation.py:183-257 | the loop decodes every row in ledger order |
| ColocationManager.Manager.RequestGpu | meshy/service/colocation.py:198-216 | posting a request is the protocol step of that name |
| ColocationManager.Manager.ApplyGrant | meshy/service/colocation.py:366-387 | exactly which grants are an error, that any other new one becomes the position, the grant and the owner, and that the acquire callback runs exactly for a grant to this service not acquired before |
| ColocationManager.Manager.EnsureFallbackRequest | meshy/service/colocation.py:344-364 | posts exactly when the service has no open fallback request in the view: one row, with id, ring position, priority and kind of the service it is for; fails exactly for a service outside the ring |
| ColocationManager.Manager.HasOpenRequestFrom | meshy/service/colocation.py:421-428 | true exactly when some known record of that service is open and ungranted |
| ColocationManager.Manager.BestCandidate | meshy/service/colocation.py:392-413 | the loop returns an open ungranted record of another service, below all others in (priority, distance, creation time, id), none exactly when no record is open, ungranted and of another service |
| ColocationManager.Manager.SelectNext | meshy/service/colocation.py:389-413 | first candidate, synthesised return or nothing; the recursive retry happens at most once |
| ColocationManager.Manager.HandOver | meshy/service/colocation.py:487-518 | release callback, own row closed, grant written, grant applied: exactly the four protocol steps; one new link from this service to the chosen request, the card vacated, the owner known to be another, the own row closed and every third row unchanged |
| ColocationManager.Manager.TakeOne | meshy/service/colocation.py:311-342 | one turn of the scan loop is one protocol step; a preempting transfer starts exactly for an open record seen by a fallback owner not transferring; a turn that brings a grant leaves a fallback member that does not own the card with an open request of its own, having posted exactly one row if it knew of none |
| ColocationManager.Manager.Reconcile | meshy/service/colocation.py:309-342 | the whole loop, nested transfers included, is a run of protocol steps and terminates |
| ColocationManager.Manager.TransferLocked | meshy/service/colocation.py:454-518 | the wait for the next member ends when that member asks or after all rescans, never before; then the selector's first choice is handed the card, or nobody when nobody asks and nobody can be asked |
| ColocationManager.Manager.Transfer | meshy/service/colocation.py:430-452 | an error and no change for a service that does not own the card or is transferring already; otherwise the guard flag is set for the nested scans and cleared on every exit |
| ColocationManager.Manager.Poll | meshy/service/colocation.py:258-265 | one idle turn takes a scan, works all of it off as a run of the protocol and leaves the call stack empty |
| ColocationManager.Manager.Release | meshy/service/colocation.py:294-306 | a run that begins with the release command's scan; a returned grant is the newest link, from this service to another, and the card is vacated; nothing is returned only by an owner with no candidate and nobody to synthesise for; an error only without the card or with a grant source outside the ring; from every reachable state the thread goes on |
| ColocationStanding.TurnPosts | meshy/service/colocation.py:340-342 | a turn that moves the position of a fallback member to another's grant leaves an open fallback request in its view, and posts exactly one row if the view held none |
| ColocationStanding.StepStands | meshy/service/colocation.py:309-518 | every step of every manager keeps the second invariant: no copy of an own request misses a grant, no scan lags by more than the own link |
| ColocationStanding.PassedByStillAsks | meshy/service/colocation.py:340-364 | in every reachable state a fallback member that has applied a grant from one other service to another has an open fallback request in its view, on a row not granted so far as it can know, if no other row bears the ids of its requests |
| ColocationWitness.HandOverPostsNothing | meshy/service/colocation.py:497-509 | right after its own hand-over a fallback member has no such request: a run of every ring that begins with a fallback member |
| ColocationStanding.OwnRowIsClosed | meshy/service/colocation.py:493-495 | before the grant is written exactly one row changes, that of the request the owner was granted: it reads closed and keeps its grant |
| ColocationSafety.StepKeeps | meshy/service/colocation.py:309-518 | every step of every manager, in any interleaving, keeps the invariant linking stale views to the ledger |
| ColocationSafety.ReachableKeeps | meshy/service/colocation.py:309-518 | the invariant holds in every reachable state of the ring |
| ColocationSafety.MutualExclusion | meshy/service/colocation.py:487-509 | at most one service is resident, and it is the target of the newest grant |
| ColocationSafety.CallbacksAlternate | meshy/service/colocation.py:381-387 | all callbacks of all services form one word acquire, release, acquire, ... along the chain of grants |
| ColocationSafety.VacatedBeforePublished | meshy/service/colocation.py:487-506 | when a grant row is about to be written the card is empty and the writer was the last to leave it |
| ColocationSafety.GrantsFormOneChain | meshy/service/colocation.py:366-376 | the grants on the ledger form one chain 0..k, each link on exactly one row and naming its predecessor as source |
| ColocationSafety.ViewsArePrefixes | meshy/service/colocation.py:366-378 | every view is a prefix of the chain; the bad-genesis, non-contiguous and re-entry errors never occur |
| ColocationSafety.RecursionIsBounded | meshy/service/colocation.py:433-452 | the mutual recursion nests at most loop, transfer, loop under one command, with one transfer at a time |
| ColocationSafety.OwnersHoldTheNewestLink | meshy/service/colocation.py:178-180 | a manager that believes it owns the card holds the maximum sequence of the ledger |
| ColocationSafety.SelectionIsUngranted | meshy/service/colocation.py:395-413 | whatever an owner selects from its stale view is a row of the true ledger that was never granted |
| ColocationSafety.ChainOnlyGrows | meshy/service/colocation.py:497-506 | no step removes or rewrites a published link or a past callback |
| ColocationSafety.ChoiceIsHandover | meshy/service/colocation.py:478 | only the newest target chooses, and it chooses from well-posted requests |
| ColocationSafety.PublishNamesTheChoice | meshy/service/colocation.py:497-509 | the published link goes from the chooser to the chosen request and row |
| ColocationFairness.OvertakerIsBetween | meshy/service/colocation.py:401-413 | an on-demand request served before another lies strictly between the owner and the waiting one |
| ColocationFairness.NextMemberWins | meshy/service/colocation.py:467-477 | a waiting immediate downstream on-demand member is always chosen next |
| ColocationFairness.FallbackYields | meshy/service/colocation.py:402-413 | a fallback request is chosen only when no on-demand request waits |
| ColocationFairness.OldestFirst | meshy/service/colocation.py:402-413 | of one service's open requests of a kind the oldest is chosen, of equally old ones the first by id |
| ColocationOvertaking.StepComesNearer | meshy/service/colocation.py:389-413 | while a member asks, links published plus links still to wait for never grow, at any step of any manager |
| ColocationOvertaking.BoundedOvertaking | meshy/service/colocation.py:389-413 | in every run from any reachable state a member that asks whenever somebody chooses is served within its ring distance from the holder, one link more if the holder had already settled on somebody |
| ColocationFairness.CandidateMeansSuccess | meshy/service/colocation.py:403-413 | with any candidate the selector finds a first one |
| ColocationFairness.SynthesisReturnsToSource | meshy/service/colocation.py:403-410 | with nobody in sight one request is posted for the grant source and the retry selects exactly it |
| ColocationFairness.ReleaseOutcome | meshy/service/colocation.py:389-413 | exactly when a release hands the card over, keeps it, or fails on an unknown source |
| ColocationWitness.ReturnCanMissTheFallback | meshy/service/colocation.py:478-486 | a run of every ring with a fallback member at the start and two on-demand members in which the return goes to an on-demand member that never asked, although the log says fallback owner |
| ColocationWitness.ReturnReachesFallbackIff | meshy/service/colocation.py:408-410 | in every reachable state a choice with no candidate gives the card back to whoever handed it over, so to a fallback member if and only if that was one |
| ColocationWitness.GenesisOwnerCannotRelease | meshy/service/colocation.py:403-410 | a run in which the owner of the genesis grant releases and fails for an unknown service, keeping the card and its thread |
| PlanTypes.RoundUpIsTight | meshy/backend/titan/plan.py:141-142 | rounding reaches the first multiple at or above, is monotone and subadditive |
| PlanDeal.SortIsDescending | meshy/backend/titan/plan.py:164 | the length sort is a permutation into decreasing length, ties by position |
| PlanDeal.SnakeClosedForm | meshy/backend/titan/plan.py:145-155 | closed form of the boustrophedon deal: which item each bin holds at each place, and how many |
| PlanDeal.SnakeCovers | meshy/backend/titan/plan.py:145-155 | the deal loses and duplicates nothing |
| PlanDeal.SnakeIsEven | meshy/backend/titan/plan.py:148-149 | bins differ by at most one item and are equal for whole rounds |
| PlanDeal.SnakeLoop | meshy/backend/titan/plan.py:145-155 | the dealing loop computes that deal |
| PlanDeal.RoundsTelescope | meshy/backend/titan/plan.py:148-149 | over whole rounds of a falling sequence two bins differ by at most its first minus its last value |
| PlanPacking.PackMicrosLoop | meshy/backend/titan/plan.py:158-203 | the nested first-fit loops compute the recursive first-fit |
| PlanPacking.PackingIsSafeAndTight | meshy/backend/titan/plan.py:158-203 | every sample in one micro-batch, documents inside their row, multi-sample micro-batches within budget or row cap, and no earlier one could have taken a sample of a later one |
| PlanPacking.MicroCountBound | meshy/backend/titan/plan.py:171-194 | micro-batches times budget is below twice the forward tokens when packed, minus one micro-batch when padded |
| Planner.MiniCountBounds | meshy/backend/titan/plan.py:242-243 | the number of mini-batches is between one and the share, and one exactly when the share fits |
| Planner.MiniCountIsLeast | meshy/backend/titan/plan.py:242-243 | the number of mini-batches is the least that keeps each within the configured size |
| Planner.RanksAreEqual | meshy/backend/titan/plan.py:239-242 | every rank receives exactly n / dp samples |
| PlanLoops.FillMicros | meshy/backend/titan/plan.py:263-266 | fillers are appended up to the largest count of any rank |
| PlanLoops.GlobalDenominators | meshy/backend/titan/plan.py:267-274 | the accumulating loop yields the document, loss-token and per-rank token counts of the mini-batch |
| PlanLoops.BuildPlanLoop | meshy/backend/titan/plan.py:211-288 | the whole loop computes the plan the theorems speak about: it succeeds exactly for a non-empty batch with matching loss counts that the ranks can share evenly, and names the first of the three conditions that fails |
| PlanTheorems.PlanExists | meshy/backend/titan/plan.py:228-243 | a plan exists exactly for such a batch, and then with as few optimizer steps as the mini-batch size allows |
| PlanTheorems.EverySampleOnce | meshy/backend/titan/plan.py:239-257 | every sample sits at exactly one place of exactly one micro-batch of one rank |
| PlanTheorems.RanksOwnEqualShares | meshy/backend/titan/plan.py:285-288 | local indices partition the batch into equal shares and micro-batches only name local positions |
| PlanTheorems.RanksRunInStep | meshy/backend/titan/plan.py:31-36 | all ranks have equal numbers of mini- and micro-batches and the same denominators |
| PlanTheorems.MiniSizes | meshy/backend/titan/plan.py:243-253 | mini-batches are non-empty, within the configured size, and differ by at most one sample |
| PlanTheorems.MicrosAreRunnable | meshy/backend/titan/plan.py:259-266 | every micro-batch is an empty row of the alignment width or a sound, safe packing of truncated samples within the sequence length |
| PlanTheorems.FillersAreNeeded | meshy/backend/titan/plan.py:263-266 | in every mini-batch some rank has no filler |
| PlanTheorems.DenominatorsAddUp | meshy/backend/titan/plan.py:37-39 | document denominators add up to n and loss-token denominators to the sum of loss tokens |
| PlanTheorems.RanksAreBalanced | meshy/backend/titan/plan.py:148-149 | token totals of two ranks differ by at most the longest minus the shortest truncated sample |
| PlanTheorems.LocalOrderIsTheDeal | meshy/backend/titan/plan.py:250-252 | a rank holds its samples longest first, so the second sort changes nothing |
| PlanTheorems.RanksTakeTurns | meshy/backend/titan/plan.py:239-241 | the k-th sample of a rank has a known place in the length order of the batch: the ranks take turns there and back |
| PlanTheorems.StepsMixLengths | meshy/backend/titan/plan.py:246-257 | which of a rank's samples a mini-batch trains on, in closed form: dealt there and back by length, so every optimizer step sees a mix of lengths |
| TensorLayout.SplitInvertsLayout | meshy/backend/titan/opd.py:92-110 | splitting inverts the layout in both modes whatever the padding holds |
| TensorLayout.IndexAdd | meshy/backend/titan/trainer.py:787-791 | the in-place accumulation computes each segment sum |
| TensorLayout.SegSumOfParts | meshy/backend/titan/trainer.py:787-791 | over concatenated segments the sum in a slot is the sum of its own segment |
| MicroBatch.LayOutPadded | meshy/backend/titan/batch.py:118-140 | the padded branch fills its tensors, document ids and positions included, with the per-sample definition, row by row |
| MicroBatch.LayOutPacked | meshy/backend/titan/batch.py:142-177 | the packed branch fills its tensors at a running offset, positions restarting per document and in the tail, and records the document boundaries for the attention kernel |
| LayoutTheorems.NextTokenAligned | meshy/backend/titan/batch.py:91-93 | labels, mask and log-probs are shifted inside the document only; its last position carries label 0 and mask 0 |
| LayoutTheorems.PositionsRestart | meshy/backend/titan/batch.py:140-161 | in both layouts the cell of token t of a document holds position t |
| LayoutTheorems.PaddingIsInert | meshy/backend/titan/batch.py:119-177 | every other cell holds token and label 0, mask and log-prob 0, and in the packed layout the extra document id |
| LayoutTheorems.AttentionStaysInside | meshy/backend/titan/batch.py:154-178 | two cells of a packed row lie between the same boundaries exactly when they carry the same document id |
| LayoutTheorems.MaskedDocumentSum | meshy/backend/titan/trainer.py:787-790 | the masked sum of any tensor over a document is the sum over its own tokens, in both layouts |
| LayoutTheorems.MaskedDocumentCount | meshy/backend/titan/trainer.py:791 | the mask count of a document is its own, in both layouts |
| LayoutTheorems.MaskDocSum | meshy/backend/titan/trainer.py:578-588 | a document mask weighs the sum of mask[1:L] |
| LayoutTheorems.TotalMask | meshy/backend/titan/batch.py:137-139 | padding carries no mask and a filler micro-batch none at all |
| LossMeaning.LossCountIsMaskWeight | meshy/backend/titan/trainer.py:578-588 | for a 0/1 mask the loss-token count is the shifted mask weight |
| LossMeaning.MicroLossIsItsShare | meshy/backend/titan/opd.py:171-181 | one micro-batch contributes exactly its own samples over the global denominator |
| LossMeaning.DenominatorsAreTrue | meshy/backend/titan/plan.py:267-274 | the denominators of a mini-batch count exactly the samples the plan names for it |
| LossMeaning.PlanFeedsLayout | meshy/backend/titan/batch.py:142-146 | a plan never asks for a layout its samples do not fit |
| LossMeaning.PlanPreservesMeaning | meshy/backend/titan/plan.py:29-40 | summed over ranks and micro-batches the masked loss of a mini-batch is its plain token mean or sequence mean |
| LossMeaning.OneStepIsTheBatchMean | meshy/backend/titan/plan.py:29-40 | with a single mini-batch that is the mean over the whole batch |
| LossMeaning.ShardingDoesNotMatter | meshy/backend/titan/plan.py:29-40 | two trainers with different parallelism, budgets and layouts compute the same loss |
| ScoreGather.LayOutTeacher | meshy/backend/titan/opd.py:58-89 | teacher columns laid out in place; an error exactly when some teacher row is shorter than its document |
| ScoreGather.SplitTeacher | meshy/backend/titan/opd.py:92-110 | the splitting loop returns one slice per document |
| ScoreGather.TeacherRoundTrip | meshy/backend/titan/opd.py:92-110 | splitting the laid-out teacher columns gives them back |
| ScoreGather.ScoreRank | meshy/engine/opd.py:106-140 | a rank files each of its samples under its global index with its own score |
| ScoreGather.GatherScores | meshy/engine/opd.py:86-103 | one score per row in the original order; the unscored error is unreachable |
| ScoreGather.GatherPublished | meshy/engine/critic.py:380-441 | one published entry per row in the original order, the values of the document or what is made of them; the lost-rows error is unreachable |
| StateStore.Store.WriteMeta | meshy/service/checkpoint.py:88-104 | metadata is added atomically |
| StateStore.Store.WriteHeavy | meshy/engine/critic.py:236-238 | the collective write: safe at every moment exactly when the step is not committed yet |
| StateStore.Store.MarkComplete | meshy/service/checkpoint.py:106-115 | the commit point, which checks nothing: the disk stays safe exactly when metadata and directory were finished before |
| StateStore.Store.SaveShard | meshy/engine/critic.py:234-251 | directory, metadata, marker and pruning in order, asking only for an uncommitted step: every state on the way is safe, holds the old steps or the newest ones, and touches no other service |
| StateStore.Store.Drop | meshy/service/checkpoint.py:191-201 | marker first, then metadata, then directory; every intermediate state is safe and touches this shard only |
| StateStore.Store.Prune | meshy/service/checkpoint.py:155-169 | exactly the newest k committed steps stay, all files of the others are gone, nothing else is touched at any moment, and k <= 0 does nothing |
| StateStore.Store.DropNewerThan | meshy/service/checkpoint.py:171-189 | every intermediate state only loses shards past the resume point, and what is lost leaves no file behind |
| StateStore.DroppingTheTailKeepsTheAnswer | meshy/service/ignite.py:242-251 | each of those states resolves to the same step |
| StateStore.Resolve | meshy/service/checkpoint.py:204-228 | the search returns the newest step every participant committed, even when each read sees a later moment of the dropping |
| RunDisk.CheckpointParticipants | meshy/service/topology.py:159-178 | the loop collects exactly the names of services with a checkpoint policy, a training service only past the first critic's cold start and never when that is endless |
| RunDisk.EndlessColdStart | meshy/service/topology.py:116-123 | with an endless cold start a resume needs exactly the services with a policy that are not training |
| RunDisk.ParticipantsAreTheRoles | meshy/service/topology.py:159-178 | in a run with an inference service, which has no policy, the trainer is required exactly after the cold start, critic and rollout always, nobody else ever |
| RunDisk.NewestOnDisk | meshy/service/checkpoint.py:204-228 | the search on files and the resume point of the run are the same question |
| RunDisk.EveryoneResumesAtTheSameStep | meshy/service/ignite.py:231-251 | every process that searches while the tail is dropped finds the rollout's newest committed step |
| RunDisk.CommitIsNew | meshy/engine/titan.py:414-439 | whenever a role commits in a run, the step is newer than all its shards, so saving it never meets a committed one |
| RunDisk.SaveIsARun | meshy/worker/rollout.py:433-456 | saving a shard file by file passes only through disks that show states of the run, for each role |
| Retention.TrimKeepsTheNewest | meshy/service/checkpoint.py:163-169 | keeping k shards keeps the newest k unchanged |
| RolloutWorker.Worker.Restore | meshy/worker/rollout.py:395-431 | restored counters, with the gate counter at the resume step, and an error exactly when the shard is missing |
| RolloutWorker.Worker.Snapshot | meshy/worker/rollout.py:433-457 | the shard records the worker as it stands and the oldest ones make room |
| RolloutWorker.Worker.TryAdvanceGate | meshy/worker/rollout.py:471-501 | reads one gate, snapshots exactly at boundaries past the resume step |
| RolloutWorker.Worker.AcquireGenerationSlot | meshy/worker/rollout.py:507-527 | a slot within the budget, each gate read only when the budget before it was spent, an error for a non-positive count |
| RolloutWorker.Worker.Dispatch | meshy/worker/rollout.py:723-727 | one prompt leaves under the version of the last gate read, each gate read only when the budget before it was short of one group, and nothing leaves only when all gates are read; the call is a run of the composed model ending in the prompt's start |
| RolloutWorker.AdvanceIsARun | meshy/worker/rollout.py:471-501 | the worker's gate handling is a run of the composed model |
| RolloutWorker.AcquiringIsARun | meshy/worker/rollout.py:523-525 | the acquire loop for a waiting prompt reads only gates the model lets it read |
| ConsumerWorkers.MakePolicy | meshy/config.py:55-66 | a policy is accepted exactly for a positive interval and at least two retained steps |
| ConsumerWorkers.CriticWorker.ProcessBatch | meshy/worker/critic.py:155-205 | gate or column, the error cases, one gate number per cold window and none after, and the window is cleared exactly when the output was a gate |
| ConsumerWorkers.TitanTrainer.RestoreCounters | meshy/engine/titan.py:375-418 | counters from the shard, zero inside the cold start, an error exactly for a missing later shard or one whose recorded trainer step is not the one restored |
| ConsumerWorkers.TitanTrainer.StartupGate | meshy/worker/titan.py:98-109 | the opening pulse is the gate the restored rollout expects, carries the version of that point of the run, and is the only gate in the queue |
| ConsumerWorkers.TitanTrainer.PruneWeights | meshy/engine/titan.py:471-498 | exactly the newest few, the current version and those a retained shard names survive |
| ConsumerWorkers.TitanTrainer.ProcessBatch | meshy/engine/titan.py:301-354 | a gate and a boundary shard exactly when the window is complete, and then exactly the new, the newest few and the shards' weight exports survive; otherwise only the sample count moves |
| RunTheorems.StepKeeps | meshy/worker/tq.py:205-255 | every step of every role, crashes and restarts included, keeps the whole invariant |
| RunTheorems.ReachableOk | meshy/worker/tq.py:205-255 | the invariant holds in every reachable state of the run |
| RunRolloutSteps.ReadsWhenSpent | meshy/worker/rollout.py:521-525 | gate g > 0 is read exactly when (g - 1 + W) windows have been started |
| RunConsumerSteps.PruneIsSafe | meshy/service/checkpoint.py:155-169 | pruning by count never removes one of the newest k boundaries |
| RunLemmas.TrainerBehindCritic | meshy/worker/critic.py:197-205 | the trainer never passes the critic that feeds it |
| RunResults.GatesArriveInOrder | meshy/worker/rollout.py:473-484 | the gate read is the one expected, so the out-of-order warning never fires |
| RunResults.StreamIsContiguous | meshy/worker/rollout.py:471-486 | between crashes the gates read are consecutive |
| RunResults.ResumedStreamStartsAtTheStep | meshy/worker/titan.py:98-109 | after a resume at N the stream is N, N+1, ... inside or after the cold start |
| RunResults.PublishersTakeTurns | meshy/worker/titan.py:114-120 | trainer pulse, critic gates 1..C and trainer gates with offset continue one numbering |
| RunResults.RolloutIsPaced | meshy/worker/rollout.py:465-469 | rows started but not fetched by the pacing consumer never exceed W windows, and never one window after a resume |
| RunResults.OneWindowIsOnPolicy | meshy/worker/rollout.py:507-527 | with W = 1 every row of a trainer step carries the trainer's current weight version |
| RunResults.ShardIsTheState | meshy/worker/rollout.py:433-456 | the shard of N is the rollout's state when it had read gate N |
| RunResults.ResumeIsARewind | meshy/worker/rollout.py:395-431 | restore, the next batch and the pulse give the recorded counters back, go on with the first prompt past the recorded position, leave one window of budget and take no second snapshot |
| RunResults.ShardForgetsTheOpenBatch | meshy/worker/rollout.py:701-724 | a snapshot always falls into an open batch, whose remaining prompts were never sent and lie before the recorded position |
| RunResults.SkippedPromptsStaySkipped | meshy/worker/rollout.py:671-689 | after a resume no prompt before the recorded position is started: sent ones are not sent again, the rest of the open batch is skipped for good |
| RunResults.PromptsAreNew | meshy/worker/rollout.py:671-703 | no prompt is dispatched twice, nor again after a resume if it was dispatched before the shard |
| RunResults.RowsAreConserved | meshy/worker/critic.py:197-205 | every row has one place and one owner; published rows reach the trainer, cold rows never do |
| RunResults.CriticClearsWhatItDidNotPublish | meshy/worker/critic.py:138-144 | the critic clears a window exactly when it published no column for it |
| RunResume.LeadIsBounded | meshy/worker/rollout.py:465-469 | how far a consumer can be ahead of the rollout's newest shard |
| RunResume.ParticipantsHoldIt | meshy/service/checkpoint.py:159-168 | every participant still holds the rollout's newest step |
| RunResume.DropKeepsTheAnswer | meshy/service/checkpoint.py:171-182 | dropping the crash tail never changes the resolved step |
| RunResume.ResumePointIsNewestCommitted | meshy/service/checkpoint.py:204-228 | in every reachable state the resume point is the rollout's newest committed step, if W + I <= k * I |
| RunResume.ShardsDescribeFinishedWindows | meshy/worker/rollout.py:436-441 | a rollout shard N implies every participant at N had passed its own commit of N |
| RunResume.RestartIsComplete | meshy/engine/titan.py:389-408 | a restart finds every shard it asks for and all clocks continue from the resume point |
| RunNecessity.WideWindowLosesTheStep | meshy/config.py:50-53 | otherwise some run prunes the only common step |
| RunNecessity.WindowMustFitTheRetention | meshy/config.py:50-53 | the resume point is always the newest committed step if and only if W + I <= k * I |

## Left out

- Interference inside one method call: the class of `ColocationManager` runs its methods alone; other managers interleave between its steps in `ColocationProtocol`.
- Non-atomic ledger scans: a scan is one atomic snapshot, as the source's sorting and duplicate checks expect.
- Raising owner callbacks: acquire and release callbacks are a resident flag and always return.
- Ledger row versions, transition and payload fields, group ids and lease events: no decision of the ring reads them (one ring per ledger).
- Wall-clock waits: the phase-1 deadline of a transfer is a bounded number of rescans, in the protocol any number.
- `ColocationStanding.PassedByStillAsks`: asks that no other row bears the ids of the member's own fallback requests, since a later row of that id replaces the record; and not after the member's own hand-over, where `ColocationWitness.HandOverPostsNothing` shows it false.
- `ColocationOvertaking.BoundedOvertaking`: assumes the request is in the owner's view at each selection; how soon a scan shows it is timing.
- Placement of services on cards and the ignition order: dictionary plumbing around the participants that are modelled.
- TransferQueue internals: a fetch returns exactly its batch size of eligible, untaken rows or nothing; the gate queue is FIFO.
- Failed groups and zero-variance filtering: they break the exact row accounting, so no group is dropped or fails.
- Ungated rollout (`pacing_window=None`), an infinite cold start and runs without a trainer: the gate, pacing and resume results do not claim them, except that the critic worker object covers the infinite cold start.
- Unequal batch sizes: the critic's, the trainer's and the pacing batch are one number, which the group size and the trainer's fetch size divide.
- Several replicas of one role: one critic and one trainer service; data parallelism inside them is the planner's part.
- `RunResume.ResumePointIsNewestCommitted`: needs the window bound, which `RunNecessity.WindowMustFitTheRetention` shows to be exact.
- `ConsumerWorkers.CriticWorker.ProcessBatch`: without the GPU request and release around the engine call, which are the ring's part.
- `ConsumerWorkers.TitanTrainer.ProcessBatch`: without the GPU request around the step and the path of the exported weights, which only other services read; the version stands for it.
- `ConsumerWorkers.TitanTrainer.RestoreCounters`: without the recorded weights path, for the same reason.
- Errors of a scan inside a release command: the protocol stops the manager there, the source only fails the command; `ColocationSafety.ViewsArePrefixes` shows that such an error cannot occur.
- Liveness: no claim that a step is eventually taken.
- File contents beyond presence, and directories that exist without any marker: a torn directory counts as absent.
- Context-parallel permutation of padded tensors: the permutation belongs to a library that is not part of this model.
- Per-token and per-sequence advantage columns and positive-LM weights of a micro-batch: laid out like the log-probs, but unshifted.
- Floating point: losses and masks are reals, sums are exact; the optimizer, gradients and the attention kernel are a per-token loss that depends on its own sample only; `LayoutTheorems.AttentionStaysInside` is what the packed layout contributes to that. The longest document, also handed to the kernel, is left out.
- Plan statistics and the alignment resolver: single expressions.
- The critic's returns and advantage estimation, reward grading, datasets, metrics and inference I/O: libraries and text handling.
