# velogb10 host protocols: a verified model

This project models the decisions an LLM inference server takes on the host, and proves what
they guarantee. The GPU is an uninterpreted sequence machine (module `Trunk`): a slot's memory is
a recurrent cell that every token overwrites plus position-addressed KV rows, and the argmax is an
arbitrary function of that memory, the penalty table and the vocabulary mask. Five systems are
modelled:

* **The batch scheduler** (`src/batch.rs`): lanes, physical slots, the prefill cursor, prefix-cache
  checkpoints, speculative decoding with chains, trees and packed forests, penalties, schemas,
  sampling, the depth policy, the block drafter's shared ring, and the head/mirror loops of
  tensor-parallel serving. What a client sees is stated on the fields it sees, whatever form its
  steps took: when an answer ends and why, what is fed next, which request it answers, and that it
  comes at all (`SchedTurns`, `SchedAnswers`, `SchedSchemas`, `SchedJobs`, `SchedRing`, `SchedLive`,
  `TpLive`). Modules `Trunk` to `Forest`, `ChainExact`, `PackExact`, `Slots` to `TpServing`, these
  seven, `TreeExact`, `Rejection`, `Policy`, `Df2Ring`, `Images`, `ImageReuse`.
* **The doorbell all-reduce transport** (`native/net_shim.c`, `native/tp_doorbell.h`, K1 and K2 of
  `kernels/gpu_batch.cu`): two ranks with tag, payload words and commit placed in any order, epochs
  validated by the proxy or proved by the receiving kernel in any mix; the tree transport between
  any number of ranks, its schedule and watermarks, and what a turn of it computes; credit and
  watchdog. Modules `Doorbell`, `DoorbellSafety`, `DoorbellExact`, `DoorbellProxy`, `DoorbellWire`,
  `RecursiveDoubling`, `Nway`, `NwaySafety`, `NwayExact`, `NwayClean`, `AllReduce`, `Progress`.
* **The control exchange** (`native/net_shim.c`). Modules `Exchange`, `ExchangeExact`.
* **The resumable artifact writer** (`src/dsv4_convert.rs`). Module `Convert`.
* **The CPU-list printer and parser** (`src/cpu_affinity.rs`). Module `CpuList`.

Code that computes is modelled by functions; code that updates state step by step is modelled by
classes and loops (`BatchScheduler`, `TpHead`, `TpMirror`, `MtpPolicy`, `NetCtx`, `NwayProxy`,
`Converter`, and the loops of `Penalty`, `TreeWalk`, `ServeLoops`, `Rejection`, `Images`,
`CpuList`), each proved to take its state exactly where a specification function says; the
theorems are about those functions. `Residues` and `Wrappers` hold arithmetic and an option type.

## Where the code and its documentation part ways

The code was followed in every case; the lemma named is the proof.

* A request for one token (`max_new == 1`) gets a second one from plain decode and none from the
  chain step, because a lane is installed with one token already counted
  (`StreamLimits.SpentBudget`, `StreamLimits.ChainIsPlainExactly`).
* Per-column penalties equal plain decode's only while the history and the drafts before a stop
  fit the 64-token window, which plain decode slides (`Penalty.ColumnMatchesDecode`,
  `ChainExact.PenaltyWindowExact`).
* The chain step checks for a complete JSON document once, after all its tokens; plain decode
  checks after each. It is lossless for every network exactly when no run of drafts it can accept
  completes the document (`ChainExact.SchemaExact`, with penalties `ChainExact.ExactForEveryNetwork`;
  `StreamLimits.SchemaOvershoot` is one such schema).
* With token-exact reuse, a ring restore followed by a context-length rejection leaves a slot whose
  live state is not the end of its recorded cache (`ExactReuse.RejectKeepsLiveExactly`); the
  scheduler's rejection keeps every such record true exactly when it had not picked a ring entry
  short of the cache's end (`ExactReuse.TurnedAwayExactly`).
* The wire request carries no schema, so a schema request that is started puts head and mirror
  apart (`Lockstep.WireRoundTrip`, `Lockstep.SchemaSplitsRanks`); one that is turned away for its
  length does no harm (`Lockstep.AdmitSplits`). A session stays in step while none has been started
  (`Lockstep.RanksNeverPart`), and every step's admissions leave the two schedulers the same exactly
  that long (`Lockstep.AlikeExactly`). The event order on the wire is cancels and then the admission;
  the comment on the event type says the opposite.
* A doorbell slot is not wiped between epochs, and payload lengths vary: a word that the newest
  longer payload left exactly where a later tail is awaited, and that equals that epoch's number,
  passes for the tail. Tails can be trusted exactly for jobs without such a word
  (`DoorbellExact.TailsTrustedExactly`); `DoorbellExact.StaleTailMisreads` is a run in which a
  reduction reads another epoch's words. With a ring per round the same holds at any number of
  ranks (`NwayExact.TailsTrustedExactly`, `AllReduce.StaleTailTaken`).
* The control exchange at more than two ranks wipes its slots for this reason; the two-rank
  exchange shares its slots between frames of several sizes and does not. Its frames can be
  trusted exactly for jobs without such a word (`ExchangeExact.FramesTrustedExactly`); with one,
  a call can return the frame of four generations before (`ExchangeExact.OlderFrameReturned`,
  `ExchangeExact.StaleFrameReturned`).
* A schema lane that gets packed is neither masked nor advanced, and every packed column uses the
  lane's penalty table as it stood. Packing changes nothing for every network that keeps to its
  masks exactly for lanes without a schema whose table, if they have one, is full and lists none of the drafts shown
  (`PackExact.PackedIsChainExactly`); a schema lane can be sent any token its mask forbids
  (`PackExact.PackedLeavesSchema`).
* A comment at the step's dispatch says only the masked chain step serves schema lanes, but that
  step hands over to the tree step when trees are on. A tree step neither masks nor advances the
  schema, and its columns share one stale penalty table. It is plain decode for every network that
  keeps to its masks exactly for lanes without a schema, if penalized only while no draft path that
  goes on changes the table (`TreeExact.TreeExactly`).
* The receive kernel of groups of more than two ranks clears the awaited tail word if it is not the
  epoch's own, in two steps: a look and a store. The clearing changes nothing about which jobs are
  safe (`NwayClean.CleanTrustedExactly`), and what it reduces stays right
  (`NwayClean.CleanIsSafe`), but a tail that lands between look and store is erased and the rank
  never gets past that epoch (`NwayClean.OpensExactly`, `NwayClean.ErasedForGood`); the real kernel
  then aborts at its deadline. For every job, rank and epoch some run does this
  (`NwayClean.CanErase`), where the comment says a tail that already landed is left alone.
* The image check of a reused prefix is one-sided (`Images.CompatibleMeans`), so a resume is cold
  for every network exactly when the check passes and the request has an image wherever the slot
  does (`ImageReuse.ReuseIsColdExactly`).
* A block-drafter claim that survives a shorter prompt keeps its full length; a later, longer
  prompt can then carry rows of another sequence. Behind the guard a claim is safe exactly when
  the reused prefix lies within the extent still agreed on or before the read band
  (`Df2Ring.SurvivorExact`); `Df2Ring.SurvivorMisleads` is a history of turns that gets there. This
  costs draft quality, never output: verification still rejects. The guard's `N <= plen` is one position
  stricter than needed (`Df2Ring.CarryExact`).
* The header gives a signal cadence of 4; the code signals every commit. `Progress` covers every
  cadence.
* A comment says that in a drilled epoch, whose commit is posted before its words, the words carry
  the signal, with the accounting of the normal path. The commit is signaled there too and completes
  first, so in a batch with such an epoch, and in no other, a completion can come before its epoch
  is done (`DoorbellWire.SignalsExactly`).

## Model

| member | source | states |
|---|---|---|
| Trunk.FoldAppend | src/batch.rs:2592-2596 | prefill in any windows reaches the state of consuming the whole prefix |
| Trunk.RowsOfPrefix | src/batch.rs:2267-2269 | KV is untouched by a restore: the rows of a prefix are a prefix of the rows |
| Device.ConsumeFeeds | src/batch.rs:2774-2775 | a sequential forward leaves the slot exactly as token-by-token feeding would |
| Device.PathMem | src/batch.rs:4804-4812 | a tree column attends to its own root path, wherever its columns sit |
| Device.VerifyThenAdopt | src/batch.rs:4848-4860 | verify, compaction and leaf adoption leave the slot exactly after the accepted path, other slots untouched |
| Penalty.FillColumn | src/batch.rs:3457-3466 | the column fill is the deduplicated table of the last 64 tokens |
| Penalty.MakePenaltyDrafts | src/batch.rs:3448-3485 | column c holds the history's table extended by the first c drafts, for all 16 columns of the flat buffers |
| Penalty.ColumnInsideWindow | src/batch.rs:3440-3447 | inside the window a column's table means what plain decode's table means there |
| Penalty.ColumnOutsideWindow | src/batch.rs:6409-6423 | past the window it never does |
| Penalty.ColumnMatchesDecode | src/batch.rs:3440-3447 | a column equals plain decode's table exactly when no draft is involved or history plus drafts fit 64 |
| GreedyLane.EmitIsCut | src/batch.rs:4242-4253 | the emit loop over drafts and bonus is the stream cut at its first stop by end token or budget |
| GreedyLane.CutStops | src/batch.rs:4242-4253 | nothing before the last emitted token stops the lane, and if that does not either, everything was emitted |
| Lossless.ColumnPredictsDecode | src/batch.rs:4115-4160 | verify column j chooses what plain decode chooses after the first j drafts |
| Lossless.CommitTakes | src/batch.rs:4255-4292 | a step's bookkeeping of cache, history, schema and counters is plain decode's, token by token |
| Lossless.CommitIsPlain | src/batch.rs:4236-4292 | one verified step over plain decode's choices is that many plain steps |
| Lossless.ChainIsPlain | src/batch.rs:4191-4292 | a chain step with any drafts is as many plain steps as it sends tokens, with the same finish point |
| Lossless.SpeculationIsLossless | src/batch.rs:4191-4292 | for every drafter and every mix of plain and speculative steps the lane is one plain decode reaches |
| Lossless.UnconstrainedRunOk | src/batch.rs:4191-4292 | without penalties and schemas that holds for all runs |
| ChainExact.ExactForEveryNetwork | src/batch.rs:4191-4292 | a chain step sends plain decode's tokens for every network exactly when every column it can reach keeps the penalty window and completes no document |
| ChainExact.PenaltyWindowExact | src/batch.rs:3440-3447 | without a schema: exactly while the history and the drafts before a stop fit the window, for any end tokens and budget |
| ChainExact.SchemaExact | src/batch.rs:4256-4259 | without penalties: exactly when no run of drafts within reach ends the schema's turn |
| StreamLimits.SpentBudget | src/batch.rs:4242-4252 | a lane that enters with its budget spent gets nothing from the chain and one token from plain decode |
| StreamLimits.ChainIsPlainExactly | src/batch.rs:4242-4252 | a chain step is a positive number of plain steps exactly when the lane entered with budget left |
| TreeWalk.Children | src/batch.rs:947-949 | children of every node, complete and in ascending order |
| TreeWalk.TreeAcceptWalk | src/batch.rs:945-963 | the walk follows the target's choice through first matching children to a node none of whose children carries it, and emits the choices along it |
| TreeWalk.WalkIsTheWalk | src/batch.rs:940-944 | that walk exists and is unique for every tree |
| TreeWalk.WalkTokens | src/batch.rs:936-939 | the path's tokens are the committed token and all emitted tokens but the last |
| TreeWalk.WalkIsGreedy | src/batch.rs:932-935 | every emitted token is plain decode's choice after the ones before it |
| TreeWalk.WalkCommits | src/batch.rs:4848-4860 | after compaction and adoption the slot holds exactly the committed prefix and the accepted path |
| TreeWalk.TreeStepIsPlain | src/batch.rs:4816-4893 | a tree step with any tree is that many plain steps, and the cache and KV hold exactly its path |
| TreeExact.TreeStreamIs | src/batch.rs:3561-3680 | on any device every ready lane, with or without schema and penalties, takes the step over its tree's stale, unmasked columns |
| TreeExact.TreeExactly | src/batch.rs:4016-4018 | a tree step is plain decode for every network that keeps to its masks exactly without a schema and, if penalized, while no offered draft path that does not stop changes the penalty table |
| Forest.PackFits | src/batch.rs:3722-3723 | lanes packed at the allocator's depth never outgrow the verify width, for any depth the policy can have |
| Forest.PackUsesWidth | src/batch.rs:3722-3723 | and they get the policy's depth, or one more draft in every pack would outgrow it |
| Forest.PackedLaneOk | src/batch.rs:3834-3854 | one packed forward and the roll-backs leave every lane's slot after its own accepted prefix |
| Forest.ForestFrame | src/batch.rs:3786-3820 | cells and planes outside the packed lanes and the verify band are untouched |
| Forest.PackedIsChain | src/batch.rs:3843-3890 | an unconstrained packed lane takes the very step it would take alone |
| Forest.ForestIsPlain | src/batch.rs:3709-3890 | and that is a positive number of plain steps |
| PackExact.PackedStreamIs | src/batch.rs:3819-3890 | on any device every ready pack takes the step over its stale, unmasked columns, where alone it takes the chain step |
| PackExact.TableKept | src/batch.rs:3508-3540 | drafts leave a penalty table's meaning alone exactly when it is full and lists none of them |
| PackExact.PackedIsChainExactly | src/batch.rs:3508-3890 | packing changes nothing for every network that keeps to its masks exactly without a schema and with no shown draft that the lane's table takes in |
| PackExact.PackedLeavesSchema | src/batch.rs:3819-3890 | packed, a schema lane can be sent any forbidden token by a network that never leaves a mask |
| LaneSteps.PlainStepOk | src/batch.rs:3328-3357 | a batched step leaves the slot after its cache and is plain decode for a greedy lane |
| LaneSteps.ChainDeviceOk | src/batch.rs:4202-4208 | the roll-back restores the state of the last accepted column, whatever was rejected behind it |
| LaneSteps.ChainPredIs | src/batch.rs:4118-4122 | device column j of a chain sees exactly the committed tokens and the first j drafts |
| LaneSteps.ChainStepOk | src/batch.rs:4012-4292 | the device chain step is the stream's chain step and leaves pos equal to the cache length |
| LaneSteps.SampledStepOk | src/batch.rs:4536-4602 | a sampled step caches what was fed and leaves the slot exactly after it |
| LaneSteps.TreeStepOk | src/batch.rs:4804-4893 | a device tree step leaves the slot exactly after its recorded cache |
| LaneSteps.TreeStepDecodes | src/batch.rs:4804-4893 | and for an unconstrained lane is some plain steps |
| Slots.RingCellsApart | src/batch.rs:1355-1362 | no two ring entries share a state cell |
| Scheduler.LongestIs | src/batch.rs:2248-2249 | the search keeps the longest candidate, the last of those on a tie |
| Scheduler.ChoiceIsFree | src/batch.rs:2250-2265 | a request gets a slot exactly when one is free, and that slot leaves the list |
| Scheduler.ChoiceIsShort | src/batch.rs:2193-2196 | whatever is resumed, at least one prompt token is left to prefill |
| Scheduler.BatchNext | src/batch.rs:3328-3357 | a batched lane's forward followed by its bookkeeping is one step of the pass over the lanes |
| Scheduler.BatchLater | src/batch.rs:3328-3357 | bookkeeping done after the whole shared forward reaches the same state |
| SchedInvariant.LanesApart | src/batch.rs:1014-1014 | no two lanes share a slot |
| SchedInvariant.SlotsConserved | src/batch.rs:1750-1771 | free slots, lanes and cursor add up to the batch width |
| SchedInvariant.GateFindsSlot | src/batch.rs:1746-1771 | the callers' gate holds exactly when admission finds a slot |
| SchedAdmit.GridHitsAre | src/batch.rs:2214-2247 | under grid reuse the candidates are exactly the usable ring entries of free slots |
| SchedAdmit.ChoiceOk | src/batch.rs:2214-2265 | the chosen resume point is a used ring entry whose whole prefix matches the prompt |
| SchedAdmit.ChoiceIsLongest | src/batch.rs:2195-2196 | no free slot offers a longer usable checkpoint |
| SchedAdmit.ReusedSlot | src/batch.rs:2284-2290 | dropping entries past the reuse point leaves every other entry good for the new prompt |
| SchedAdmit.ResumedCold | src/batch.rs:2267-2276 | a restored ring entry puts the slot exactly in the cold state of the prefix |
| SchedAdmit.RejectedKeepsInv | src/batch.rs:2507-2531 | a rejected admission returns its slot and keeps the invariant |
| SchedAdmit.StartedKeepsInv | src/batch.rs:2541-2549 | an accepted admission starts from the cold state of the reused prefix and keeps the invariant |
| SchedAdmit.AdmitKeepsInv | src/batch.rs:2177-2711 | admission keeps ownership, checkpoints and lane states |
| SchedPrefill.GridWindow | src/batch.rs:2733-2745 | on the grid a window ends at the next 512 multiple or at the prompt's end |
| SchedPrefill.WindowStops | src/batch.rs:2728-2745 | in either reuse mode a window ends at the nearest of the prompt's end, 8192 tokens on, the client's boundary and the next 512 multiple, whichever apply |
| SchedPrefill.ReuseRunsColdTail | src/batch.rs:2198-2213 | whatever was reused, the windows that run are exactly the tail of the cold run's windows |
| SchedPrefill.WindowsTile | src/batch.rs:2728-2745 | windows tile what they cover and end on the grid or at the prompt's end |
| SchedPrefill.SnapshotOk | src/batch.rs:2869-2878 | a window's new ring entry is the cold state at its end, longer than every other entry |
| SchedPrefill.SnapshotPrompt | src/batch.rs:2862-2868 | the boundary snapshot is the cold state of the recorded prompt prefix |
| SchedPrefill.FinishPrompt | src/batch.rs:2913-2920 | installation snapshots the whole prompt unless a boundary snapshot is due |
| SchedPrefill.WindowKeepsInv | src/batch.rs:2722-2895 | a window moves the slot from the cold state at its start to the cold state at its end and keeps the invariant |
| SchedPrefill.FinishKeepsInv | src/batch.rs:2902-2976 | installing the lane keeps the invariant |
| SchedDecode.ServeCounts | src/batch.rs:4276-4292 | a lane that goes on advanced as many positions as it sent tokens, inside its budget |
| SchedDecode.DecodeAllowed | src/batch.rs:2479-2489 | the admission clamp leaves every later step room for what it writes |
| SchedDecode.KeptOnly | src/batch.rs:3369-3386 | compaction keeps the lanes that go on, in their old order |
| SchedDecode.CompactionConserves | src/batch.rs:3369-3386 | kept and freed slots are exactly the old lanes' slots |
| SchedDecode.DecodeKeepsInv | src/batch.rs:3065-3390 | a decode step with compaction keeps the invariant |
| SchedStreams.ServeDecodes | src/batch.rs:3065-3390 | any step of an unconstrained greedy lane is some plain steps |
| SchedStreams.DecodeFaithful | src/batch.rs:3065-3390 | a decode step leaves every unconstrained greedy request with its own cold stream, sent so far or answered |
| SchedForest.ServedOnce | src/batch.rs:3176-3204 | with packed lanes, no lane is served twice in a step and none is stranded |
| SchedForest.PacksFirstFive | src/batch.rs:3176-3204 | of two or more trusted greedy lanes exactly the first five share a verify |
| SchedForest.ServedInOrder | src/batch.rs:3176-3204 | packed lanes come first, then lanes that speculate by argmax, by rejection, and the plain batch, older lanes first among equals |
| SchedForest.PackServedOk | src/batch.rs:3819-3890 | between devices that differ in one pack only, a packed lane is served like a lane served alone |
| SchedForest.PackedKeeps | src/batch.rs:3709-3890 | the packed pass keeps ownership, checkpoints, cursor and every lane's state |
| SchedForest.ForestAllowed | src/batch.rs:3713-3725 | admission left every packed and every single lane the rows its step writes |
| SchedForest.ForestKeepsInv | src/batch.rs:3171-3390 | any mix of packed, chained, sampled and batched lanes keeps the invariant |
| SchedStreams.ForestFaithful | src/batch.rs:3171-3390 | and every unconstrained greedy request's cold stream |
| SchedTurns.StepDecoded | src/batch.rs:3065-3390 | in an ordinary step every lane gets the bookkeeping of exactly one kind of step, speculation only a lone trusted lane |
| SchedTurns.ForestDecoded | src/batch.rs:3171-3390 | in a step with packed lanes every lane gets exactly one kind of bookkeeping, speculation exactly the trusted lanes |
| SchedTurns.LaneWas | src/batch.rs:3065-3390 | a lane that goes on is an old lane after one such turn, no longer trusted if it took a plain step |
| SchedTurns.OutcomeWas | src/batch.rs:3369-3386 | a new outcome is the answer of an old lane that finished in its turn or whose client hung up |
| SchedRuns.DrainedInOrder | src/batch.rs:1753-1760 | the loop admits arrivals in order and stops only at a shut gate or an empty queue |
| SchedRuns.NextSound | src/batch.rs:1735-1771 | every step of the serve loop keeps the invariant and stays in bounds |
| SchedRuns.EveryRunIsSound | src/batch.rs:1735-1771 | in every reachable state every slot, lane and stream is as a cold server would have it |
| SchedPromises.AnswersAreCold | src/batch.rs:2198-2213 | a completed unconstrained greedy answer is exactly the one a cold server decodes one token at a time |
| SchedPromises.PrefillEndsCold | src/batch.rs:2902-2976 | a request ends its prefill, resumed or not, in exactly the cold state with the cold first token |
| SchedPromises.WindowsAreColdTail | src/batch.rs:2198-2213 | a running prefill's remaining windows are the tail of the cold run's |
| SchedPromises.GateNeverFails | src/batch.rs:2253-2265 | in every reachable state an open gate has a slot |
| SchedPromises.NeverDropped | src/batch.rs:2253-2265 | no arrival is ever dropped for want of a slot |
| SchedAnswers.AnswersEndRight | src/batch.rs:3355-3376 | in every reachable state an answer without a schema that was not hung up on starts with the prefill token and ends at the first token that uses up the budget, or is an end token not waived and past the minimum; the finish reason says which |
| SchedAnswers.EveryRunIsLawful | src/batch.rs:4242-4292 | every lane, whatever mix of plain, chained, packed, tree and sampled steps it took, has not passed an end, and every answer stops at one |
| SchedAnswers.FeedsWhatItSent | src/batch.rs:4596-4606 | in every reachable state a slot's cache and the token fed next are the prompt and what the client was sent, sampled lanes included |
| SchedAnswers.PenaltiesSeeTheAnswer | src/batch.rs:3440-3466 | the penalty table of a lane's next step counts exactly the last 64 tokens generated |
| SchedSchemas.SchemaFollowsDocument | src/batch.rs:2960-2970 | in every reachable state a schema lane that was never served blind stands in the schema state its sent tokens lead to |
| SchedJobs.AdmitGrants | src/batch.rs:2479-2511 | admission starts a request exactly if some positive budget fits, with its own id and request and the whole budget asked for or else all that fits |
| SchedJobs.InstallsCursor | src/batch.rs:2902-2976 | the lane a finished prefill becomes carries the cursor's id, request and slot |
| SchedJobs.EveryArrivalHasItsFate | src/batch.rs:1735-1771 | in every reachable state the requests under way or answered are those of the arrivals some budget fits, one each, and the refusals those of the others, in order |
| SchedJobs.AnswersAnArrival | src/batch.rs:2501-2501 | every answer answers an arrival: its id, its request, its granted budget |
| SchedJobs.FreedFirst | src/batch.rs:3369-3386 | slots are given out last freed first: the next request that resumes nothing gets the slot of the last lane that ended |
| SchedJobs.TurnedAwayFirst | src/batch.rs:2507-2531 | and after a rejection the slot it gave back |
| SchedRing.RingHoldsLast | src/batch.rs:2869-2878 | windows over the grid leave the ring with the last 16 boundaries they passed, newest before the cursor |
| SchedRing.PrefillLeavesBoundaries | src/batch.rs:2722-2895 | so a prefill, however it was resumed, ends with its last 16 boundaries in the ring |
| SchedRing.ResumeKeepsEntries | src/batch.rs:2284-2290 | resuming drops exactly the entries past the reuse point |
| SchedLive.DecodedTires | src/batch.rs:3065-3390 | a decode step leaves every lane that goes on at least one token nearer to its budget, so the work left falls by at least the number of lanes |
| SchedLive.WorkTires | src/batch.rs:1761-1771 | a turn of the serve loop with a lane or a prefill under way leaves less work than it found |
| SchedLive.EveryoneIsAnswered | src/batch.rs:1735-1775 | from any reachable state, whatever is drafted or drawn, the loop over a closed queue ends within one turn more than there is work, idle, with the whole queue taken in order and exactly one outcome per arrival |
| SchedLive.IdleHasAnswered | src/batch.rs:1735-1775 | an idle server has answered exactly the arrivals some budget fits, with their granted requests, and refused the others in order |
| ExactReuse.SlotHitsAre | src/batch.rs:2214-2247 | in either reuse mode a slot's candidates are exactly its usable resume points: the live cache, the prompt checkpoint or a ring entry that the prompt extends |
| ExactReuse.LongestOffer | src/batch.rs:2195-2196 | and an admission resumes a usable point at least as long as any free slot offers |
| ExactReuse.ExactHitIsCold | src/batch.rs:2180-2196 | while a slot's record is true, live, prompt and ring hits all resume in the cold state |
| ExactReuse.RejectKeepsLiveExactly | src/batch.rs:2517-2531 | a rejection keeps the live state for every network exactly when no ring entry short of the cache's end was restored |
| ExactReuse.LiveHitTrusts | src/batch.rs:2281-2282 | a later live hit starts cold exactly if that claim was true |
| ExactReuse.TurnedAwayExactly | src/batch.rs:2507-2531 | the scheduler's rejection leaves the picked slot true to its record, for every network and device the record is true of, exactly when the pick was no ring entry short of the recorded cache |
| ServeLoops.FindBest | src/batch.rs:2214-2249 | the search loop computes the longest candidate, the last one on a tie |
| ServeLoops.AcceptPrefix | src/batch.rs:4192-4199 | the accept loop is the longest agreeing prefix clamped to the schema |
| ServeLoops.EmitTokens | src/batch.rs:4242-4253 | the emit loop computes the specified tokens and flag |
| ServeLoops.CutTokens | src/batch.rs:4567-4576 | the sampled emit loop cuts at the first stop |
| ServeLoops.ValidDrafts | src/batch.rs:4131-4150 | the mask loop counts the drafts the schema accepts in a row |
| ServeLoops.AdvanceSchema | src/batch.rs:3044-3057 | the schema machine advances over the emitted tokens |
| BatchScheduling.BatchScheduler.Admit | src/batch.rs:2177-2711 | the method takes the object exactly to the specified state |
| BatchScheduling.BatchScheduler.PfAdvance | src/batch.rs:2722-2895 | one window in place |
| BatchScheduling.BatchScheduler.PfFinish | src/batch.rs:2902-2976 | installation in place, at the first free index of the lane table |
| BatchScheduling.BatchScheduler.MtpLaneStep | src/batch.rs:4012-4292 | the chain step in place |
| BatchScheduling.BatchScheduler.MtpLaneStepSample | src/batch.rs:4426-4602 | the sampled step in place |
| BatchScheduling.BatchScheduler.Df2TreeStep | src/batch.rs:4804-4893 | the tree step in place |
| BatchScheduling.BatchScheduler.BatchedStep | src/batch.rs:3307-3367 | the shared forward and then every lane's bookkeeping |
| BatchScheduling.BatchScheduler.Compaction | src/batch.rs:3369-3386 | in-place compaction of the lane table |
| BatchScheduling.BatchScheduler.DecodeStep | src/batch.rs:3065-3390 | the whole step in place |
| BatchScheduling.BatchScheduler.MtpForestStep | src/batch.rs:3709-3890 | the packed pass in place: one verify, then each pack's accept loop, roll-back and bookkeeping |
| BatchScheduling.BatchScheduler.DecodePacked | src/batch.rs:3171-3390 | a whole step with packed lanes in place |
| BatchScheduling.BatchScheduler.Iterate | src/batch.rs:1735-1775 | one turn of the serve loop in place: the drain, the wait of an idle server, one window and either form of decode step |
| Lockstep.WireRoundTrip | src/tp_serve.rs:159-213 | a request survives the wire exactly when it has no schema |
| Lockstep.SchemaSplitsRanks | src/tp_serve.rs:208-210 | a request that starts its prefill leaves the ranks apart, counting output differently, exactly when it has a schema |
| Lockstep.AdmitSplits | src/batch.rs:2507-2531 | an admission leaves both schedulers the same exactly unless it starts a request with a schema; one turned away does not count |
| Lockstep.DrainKeeps | src/batch.rs:1923-1933 | the drain keeps order, never projects more load than the table holds, and stops early only for a full table or a closed channel |
| Lockstep.LookKeeps | src/batch.rs:1921-1943 | a look at the queue, a drain or the one request a blocked wait takes, keeps order, never projects more load than the table holds, and leaves an idle head with an empty queue |
| Lockstep.ReplayFollows | src/batch.rs:2037-2053 | replaying the head's events raises no fault, and brings the mirror to the head's scheduler exactly unless they start a request with a schema |
| Lockstep.RoundKeepsTwins | src/batch.rs:1922-1995 | one iteration that starts no schema request keeps the ranks equal or ends both cleanly with nothing in flight |
| Lockstep.RanksNeverPart | src/batch.rs:1908-2065 | in every session, while no request with a schema has been started, the ranks' schedulers agree after every message, or ended cleanly with every request admitted once in order |
| Lockstep.AlikeExactly | src/batch.rs:1908-2065 | in every session the two schedulers are the same after every step's admissions exactly as long as no request with a schema has been started |
| Lockstep.SweepMarksGone | src/batch.rs:1962-1974 | the sweep marks exactly the lanes whose client is gone |
| Lockstep.LostMessage | src/batch.rs:2034-2036 | after a lost message the next step message finds the mirror behind, and it stops with its scheduler as it was |
| TpLive.HungUpStep | src/batch.rs:1921-2007 | once the senders hung up an iteration never blocks: it shuts the session down with nothing left over, or leaves less to do |
| TpLive.SessionShutsDown | src/batch.rs:1908-2008 | in any session, with one iteration more than there is work left the head has shut down, every request that arrived was admitted in order, and each has its one outcome |
| TpServing.TpHead.DrainChannel | src/batch.rs:1923-1933 | the drain loop in place |
| TpServing.TpHead.WakeUp | src/batch.rs:1934-1943 | the one request a blocked wait takes, in place |
| TpServing.TpHead.SweepGone | src/batch.rs:1968-1981 | marks the lanes whose client went away and names exactly them |
| TpServing.TpHead.Run | src/batch.rs:1921-1998 | one head iteration is the protocol's step |
| TpServing.TpMirror.Apply | src/batch.rs:2034-2062 | one mirror step is the protocol's replay |
| DoorbellSafety.Window | native/tp_doorbell.h:11-12 | skew never exceeds one barrier |
| DoorbellSafety.PlacedInTime | native/net_shim.c:1888-1894 | a word still in flight belongs to an unconsumed epoch and its send slot still holds it |
| DoorbellSafety.TailMeans | native/net_shim.c:1866-1896 | the tail word of an unconsumed epoch shows exactly when its own tail was placed or the newest older epoch reaching that far left a false one |
| DoorbellSafety.TailCheckMeans | native/net_shim.c:1882-1931 | the proxy's check of an epoch the GPU has not proved looks at exactly that word |
| DoorbellSafety.TailCheckProves | native/net_shim.c:1882-1931 | a passed check proves the epoch's tail is in place, also when the GPU's watermark let the proxy skip it |
| DoorbellSafety.K2Reads | kernels/gpu_batch.cu:472-500 | K2 reads exactly the words the peer's K1 wrote, whoever validated them |
| DoorbellSafety.EveryRunIsGood | native/net_shim.c:1728-2006 | the transport invariant holds in every reachable state under every placement order and any mix of receive modes |
| DoorbellSafety.TransportSafe | native/tp_doorbell.h:7-27 | all reductions read the peer's words and ranks stay one barrier apart |
| DoorbellSafety.FixedLengthsSafe | native/tp_doorbell.h:7-27 | barriers of one size never meet a false tail, so their reductions are right without any condition |
| DoorbellExact.Barriers | native/tp_doorbell.h:7-27 | from any job the link can run any number of barriers, every epoch placed, retired, proved and consumed |
| DoorbellExact.TailsTrustedExactly | native/net_shim.c:1862-1896 | nothing is taken for arrived before its tail is placed, in any reachable state, exactly for jobs without a false tail |
| DoorbellExact.StaleTailMisreads | kernels/gpu_batch.cu:536-607 | a concrete job and reachable state in which a reduction has read another epoch's words |
| DoorbellProxy.TagRoundTrip | native/tp_doorbell.h:145-147 | the length tag decodes exactly when the length fits its bits |
| DoorbellProxy.PostManyEnabled | native/net_shim.c:1379-1467 | a post pass takes only enabled protocol steps |
| DoorbellProxy.CheckManyEnabled | native/net_shim.c:1859-1968 | a receive pass takes only enabled protocol steps |
| DoorbellProxy.NetCtx.PostRange | native/net_shim.c:1379-1467 | posts the triples of up to sixteen ready epochs, or aborts on a bad length tag and posts nothing |
| DoorbellProxy.NetCtx.SendPass | native/net_shim.c:1795-1808 | a pass posts exactly the requests of the ready epochs, at most 16, and takes the protocol's steps for them; a bad length tag posts nothing and aborts |
| DoorbellWire.TagIsStep | native/net_shim.c:1379-1467 | carrying out a length-tag request is the protocol's step that places the tag |
| DoorbellWire.CommitIsStep | native/net_shim.c:1379-1467 | carrying out a commit request is the step that places the commit |
| DoorbellWire.OneMoreWord | native/net_shim.c:1413-1413 | carrying out a payload request is the steps that place its words one by one, the tail last |
| DoorbellWire.PostedBatchArrives | native/net_shim.c:1379-1467 | once a posted batch is carried out, in whatever order, each of its epochs is complete at the peer with its own length and exactly its send slot's words, and no other epoch's tag, slot or record has changed |
| DoorbellWire.PostedBatchLands | native/net_shim.c:1379-1467 | in every reachable state the batch delivers the words the kernels published, each epoch passing the peer's tail check |
| DoorbellWire.SignalsExactly | native/net_shim.c:1420-1450 | every epoch's last request is signaled, and no signaled request is followed by one of its own epoch exactly if the drill inverts no epoch of the batch |
| DoorbellProxy.NetCtx.DrainCq | native/net_shim.c:1472-1496 | the newest completion becomes the retirement credit; a failed one aborts |
| DoorbellProxy.NetCtx.ReceivePass | native/net_shim.c:1859-2001 | releases up to the commit hint exactly when every epoch up to it validates or the GPU proved it; does nothing when the GPU receives |
| DoorbellProxy.NetCtx.Owes | native/net_shim.c:1760-1788 | the watchdog charges exactly a positive debt after the first rendezvous |
| RecursiveDoubling.PartnersMutual | native/net_shim.c:590-592 | partners name each other, differ, and stay inside the world |
| RecursiveDoubling.TimesIs | native/tp_doorbell.h:101-119 | after distinct rounds a rank holds exactly the ranks that agree on the other bits |
| RecursiveDoubling.FullAllReduce | native/net_shim.c:585-612 | from any starting epoch, one turn of rounds combines every rank's contribution exactly once |
| Nway.RealSchedule | native/net_shim.c:585-612 | the XOR schedule gives different partners in different rounds |
| Nway.PartnerIsRound | native/net_shim.c:585-612 | the schedule's entry for an epoch is the partner of the tree's round of that epoch |
| Nway.CreditsItsQueue | native/net_shim.c:61-69 | every completion id decodes to its own queue pair and epoch |
| Nway.CreditMeans | native/net_shim.c:1676-1720 | credit reaches e exactly when an epoch at or past e retired there, and then everything up to e has |
| Nway.GateIsExact | kernels/gpu_batch.cu:300-345 | a gate on exactly an epoch's queue pairs opens exactly when it retired on all of them |
| Nway.NwayProxy.DrainCqNway | native/net_shim.c:1676-1720 | interleaved completions of all queue pairs update every credit exactly |
| Nway.NwayProxy.DrainBacklog | native/net_shim.c:2196-2208 | the previous partner's line moves to the newest epoch it has committed exactly if all of its backlog validates |
| Nway.NwayProxy.ReceiveTree | native/net_shim.c:2172-2222 | releases exactly the epochs up to the first that is not committed and in place or whose predecessor's backlog is not; says where every line stands afterwards; released implies validated, though lines may step back |
| Nway.NwayProxy.ReceiveUniform | native/net_shim.c:2134-2167 | releases to all peers' lines exactly the epochs up to the first that some peer has not committed or in place |
| NwaySafety.RingWindow | native/tp_doorbell.h:101-118 | with a ring per round, two partners never drift far enough apart to meet in a slot |
| NwaySafety.PlacedInTime | kernels/gpu_batch.cu:320-360 | behind the per-peer reuse gate a word in flight belongs to an unconsumed epoch and its send slot still holds it |
| NwaySafety.TailMeans | kernels/gpu_batch.cu:495-527 | the tail word of the awaited epoch shows exactly when its own tail was placed or the newest older epoch reaching that far left a false one |
| NwaySafety.K2Reads | kernels/gpu_batch.cu:472-528 | K2 reads exactly the words its partner's K1 wrote |
| NwaySafety.EveryRunIsGood | native/net_shim.c:1501-1573 | the transport invariant holds in every reachable state, for any schedule of mutual partners and any placement order |
| NwaySafety.TransportSafe | native/tp_doorbell.h:101-118 | and so every reduction of every rank read exactly its partner's words for that epoch |
| NwaySafety.PartnersNear | native/tp_doorbell.h:101-118 | two partners are never more than one turn of the schedule apart |
| NwayExact.Barriers | native/tp_doorbell.h:101-118 | from any job the group can run any number of barriers |
| NwayExact.TailsTrustedExactly | kernels/gpu_batch.cu:495-527 | nothing is consumed before it arrived, in any reachable state, exactly for jobs without a false tail |
| NwayClean.CleanIsSafe | kernels/gpu_batch.cu:563-573 | with the clearing of stale tails every reduction still read exactly its partner's words, whatever was erased |
| NwayClean.CleanTrustedExactly | kernels/gpu_batch.cu:563-573 | the clearing changes nothing about which jobs are safe: still exactly those without a false tail |
| NwayClean.OpensExactly | kernels/gpu_batch.cu:563-573 | a polling rank whose tail was placed may consume it exactly when the tail was not in place at the store |
| NwayClean.ErasedForGood | kernels/gpu_batch.cu:563-602 | after such a store no continuation gets the rank past that epoch |
| NwayClean.CanErase | kernels/gpu_batch.cu:563-573 | for every job, rank and epoch some run has the tail land between its partner's look and store |
| AllReduce.TurnSums | native/net_shim.c:585-612 | after a turn of the XOR schedule in which every round adds what it read, a rank's words and its partner's add up to the sum over all ranks |
| AllReduce.EveryTurnReduces | native/net_shim.c:585-612 | in every reachable state, so do a rank's words and those its last K2 of the turn read |
| AllReduce.StaleTailTaken | kernels/gpu_batch.cu:495-527 | a concrete job of four ranks in which an epoch is consumed before any of its words arrived |
| Exchange.OneApart | native/net_shim.c:2344-2346 | the ranks are never more than one generation apart |
| Exchange.PlacedInTime | native/net_shim.c:2618-2621 | no frame is overwritten before it is copied |
| Exchange.TagMeans | native/net_shim.c:2352-2455 | the awaited tag shows exactly when the peer's was placed or, in a slot that is not wiped, the newest older frame reaching that far left a false one |
| Exchange.TagProves | native/net_shim.c:2615-2624 | an awaited tag proves the peer's frame of that generation, for wiped slots whatever the sizes |
| Exchange.EveryRunIsGood | native/net_shim.c:2510-2626 | the exchange invariant holds in every reachable state |
| Exchange.ExchangeSafe | native/net_shim.c:2510-2626 | a returned exchange delivered exactly the peer's frames, in order |
| ExchangeExact.Rounds | native/net_shim.c:2352-2455 | from any job the link can run any number of exchanges, every frame placed, announced and returned |
| ExchangeExact.FramesTrustedExactly | native/net_shim.c:2352-2455 | every returned frame has arrived and is the peer's, in every reachable state, exactly for wiped slots or jobs without a false tag |
| ExchangeExact.OlderFrameReturned | native/net_shim.c:2424-2453 | a false tag one ring length back has a reachable state in which that older frame was returned in place of the awaited one |
| ExchangeExact.StaleFrameReturned | src/tp.rs:700-745 | a concrete job of mixed frame sizes that gets there |
| Exchange.RankTagsFit | native/net_shim.c:2525-2526 | generation-and-rank tags are never zero and never alias |
| Progress.NeverStuck | native/tp_doorbell.h:13-16 | with cadence and hold within the ring something can always move |
| Progress.MovesTowardOpen | native/tp_doorbell.h:13-16 | a shut gate opens within the posts, completions and one drain still owed |
| Progress.StuckExactly | native/net_shim.c:1307-1321 | a deadlock is reachable exactly when cadence or hold exceeds the ring |
| Progress.DebtIsUnmatched | native/net_shim.c:1760-1800 | watchdog debt is positive exactly when a posted epoch is unmatched, in both receive modes |
| Progress.WatchdogOnLink | native/net_shim.c:1760-1788 | in every reachable state of a link that receives one way, debt is at most the barrier being waited in, and zero where both ranks rest |
| Progress.OldDebtPhantom | native/net_shim.c:2036-2043 | the inclusive form was off by one exactly in the GPU receive mode once something arrived |
| Rejection.KeptIsMin | src/batch.rs:6118-6127 | the kept mass of a draft is the smaller of target and proposal |
| Rejection.OnePositionExact | src/batch.rs:6113-6131 | one accept-or-resample emits exactly the target law |
| Rejection.OnePositionExactIff | src/batch.rs:4520-4539 | it does so for every token exactly when the epsilon guard stays idle |
| Rejection.PointMassIdle | src/batch.rs:4470-4486 | greedy drafts keep it idle |
| Rejection.StreamIsAutoregressive | src/batch.rs:4518-4539 | over whole runs every sequence has its autoregressive probability, for every drafter and depth policy |
| Rejection.AcceptLoop | src/batch.rs:6113-6131 | the accept loop keeps exactly the drafts before the first whose draw misses its laws' accept chance, then the residual or bonus token |
| Policy.YieldBounds | src/batch.rs:550-579 | yield never falls with depth and lies between one and the depth |
| Policy.RateBounds | src/batch.rs:565-579 | every hazard is a probability |
| Policy.RateIsDeepest | src/batch.rs:565-579 | a depth's rate is that of the deepest observed position up to it, or one half |
| Policy.YieldIsExpected | src/batch.rs:550-579 | the yield is the expected number of tokens: one, and with each position's rate those of the positions behind it |
| Policy.RecordedNested | src/batch.rs:669-683 | recording keeps accepted within offered within the previous accepted |
| Policy.CurveCounts | src/batch.rs:669-683 | after any steps each position's counts are the steps that judged its draft and those that accepted it |
| Policy.ScanIsBest | src/batch.rs:715-738 | the choice names a real entry, keeps the old score, and no entry beats it by more than its margin |
| Policy.CostIsFirst | src/batch.rs:658-660 | a depth's cost is its first entry in the table |
| Policy.WindowChoice | src/batch.rs:712-738 | a window's choice is worth what its own table entry says, and no measured depth, the current one included, is worth more than the margin above it |
| Policy.ScanInRange | src/gpu.rs:16257-16266 | over a calibrated table no choice ever leaves the depths 2 to 8, whatever was learned |
| Policy.MtpPolicy.YieldAt | src/batch.rs:565-579 | the loop computes the yield |
| Policy.MtpPolicy.RecordStep | src/batch.rs:669-683 | records a step in place |
| Policy.MtpPolicy.PickDepth | src/batch.rs:712-739 | scans the context's table |
| Policy.MtpPolicy.Tick | src/batch.rs:687-762 | evaluates a full window and nothing before, disables exactly below break-even, re-probes exactly when the cooldown is over, and otherwise only counts |
| Df2Ring.CarrySound | src/batch.rs:819-848 | with reuse <= N <= plen every row of the read band holds its own position |
| Df2Ring.CarryExact | src/batch.rs:819-848 | for any ring size, exactly when a carry is sound |
| Df2Ring.BandIsWidest | src/batch.rs:836-840 | the read band is the widest that ends before the anchor and has no two positions in one row |
| Df2Ring.GuardIsSound | src/batch.rs:819-861 | whatever the other slots hold, a carry the guard lets through within the claim's extent leaves the read band right |
| Df2Ring.CarryBreaks | src/batch.rs:843-848 | past that frontier every carry is wrong |
| Df2Ring.CarriedExactly | src/batch.rs:819-848 | with rows of any other sequence in place, the read band ends up right exactly when the reused prefix is common or before the band |
| Df2Ring.SurvivingClaim | src/batch.rs:2379-2394 | a surviving claim is worth the shorter of its extent and the new prompt |
| Df2Ring.SurvivesExactly | src/batch.rs:2384-2394 | a claim is kept exactly when old cache and new prompt are the same as far as claim and prompt both reach |
| Df2Ring.SurvivorExact | src/batch.rs:2376-2398 | a claim known to agree up to x is safe to carry, whatever its rows, exactly for a reuse up to x or before the read band |
| Df2Ring.CarryWithinExtent | src/batch.rs:2376-2378 | on its own ring a claim carries right exactly when its sequence is the cached one as far as the reuse, as it is within the extent |
| Df2Ring.SurvivorMisleads | src/batch.rs:2394-2397 | three turns on the real ring and grid after which the guard accepts a claim whose rows are wrong |
| Images.CompatibleMeans | src/batch.rs:915-930 | the check pins the prefix's images exactly when the request also has one wherever the slot does |
| Images.TextOnlyAlwaysPasses | src/batch.rs:920-930 | a text-only request passes whatever the slot was built from |
| Images.ImagesCompatible | src/batch.rs:920-930 | the loop computes the check |
| ImageReuse.ReuseIsColdExactly | src/batch.rs:2237-2242 | over agreed tokens a restored prefix is the cold one for every network exactly when the check passes and the request has an image wherever the slot does |
| ImageReuse.ResumedColdWithImages | src/batch.rs:2237-2276 | under that condition the scheduler's restore puts the slot in the cold state of the imaged prompt's prefix |
| Convert.EnsureRecoverable | src/dsv4_convert.rs:568-576 | however far an atomic write gets, the final file is absent or complete |
| Convert.FinishedUnique | src/dsv4_convert.rs:427-479 | there is one finished disk: same files, same contents, nothing left over |
| Convert.Converter.WriteArtifact | src/dsv4_convert.rs:427-479 | from any crash state a run that gets through ends in the finished artifact |
| Convert.Converter.WriteSharded | src/dsv4_convert.rs:486-557 | the same for the per-rank shards and their manifests |
| Convert.Converter.ConvertThroughCrashes | src/dsv4_convert.rs:421-423 | any number of crashes, anywhere, leaves no trace after a run that gets through |
| Convert.BandsTile | src/dsv4_moe.rs:105-119 | the ranks' expert slices put together are the whole bank |
| Convert.EveryExpertOnce | src/dsv4_convert.rs:481-485 | every expert is in exactly one rank's band |
| Convert.ManifestsCoverExperts | src/dsv4_convert.rs:524-528 | on the finished disk, with the experts divisible by the world, every expert lies in the band of exactly one rank's manifest |
| Convert.ManifestsTileBank | src/dsv4_moe.rs:105-119 | slices of the bank at the listed bases and spans, in rank order, put it together again |
| Convert.ManifestPointsRight | src/dsv4_convert.rs:427-479 | a finished manifest lists exactly the tensors of the directory's files, each with a file that holds it |
| CpuList.RunsCover | src/cpu_affinity.rs:74-88 | the printed ranges are exactly the maximal runs |
| CpuList.RoundTrip | src/cpu_affinity.rs:56-88 | parsing a printed list gives its sorted duplicate-free ids exactly when no run exceeds 4097 |
| CpuList.ParseIsUnion | src/cpu_affinity.rs:56-71 | a list parses exactly if each of its parts does, to the sorted ids of all of them |
| CpuList.ParsePartExactly | src/cpu_affinity.rs:60-68 | a part is read exactly as it is meant: nothing, an id, or an ascending range of at most 4097 ids |
| CpuList.ParseIdExactly | src/cpu_affinity.rs:60-68 | an id is an optional plus and digits within 64 bits |
| CpuList.TrimIs | src/cpu_affinity.rs:58-58 | trimming takes exactly the white space off both ends |
| CpuList.SplitIs | src/cpu_affinity.rs:57-57 | the parts put together with the separator are the text again, and hold no separator |
| CpuList.FormatCpuList | src/cpu_affinity.rs:74-88 | the printer's loops |
| CpuList.ParseCpuList | src/cpu_affinity.rs:56-71 | the parser's loop |
| CpuList.CutIsNinetyPercent | src/cpu_affinity.rs:92-96 | the integer cut is ninety percent of the maximum |
| CpuList.BigExactly | src/cpu_affinity.rs:92-100 | some cores are big exactly when another falls below ninety percent of a nonzero best |

## Left out

- SchedRuns.EveryRunIsSound: stream equality is claimed for greedy requests that ask for at least two tokens and have no penalties or schema, or were admitted while speculation was off; `Lossless`, `ChainExact`, `TreeExact`, `PackExact` and `StreamLimits` say exactly what holds for the others, sampled lanes get their law from `Rejection`, and `SchedAnswers` covers them all. Requests carry no images.
- SchedLive.EveryoneIsAnswered: no request arrives while the queue is served; it holds from every reachable state, so also after any that did.
- SchedRuns.IsRun: the promises are made for grid reuse, the default, or no prefix cache; for token-exact reuse `ExactReuse` gives the one slot-level condition.
- DoorbellSafety.TransportSafe: asks that the job leaves no false tail, because `DoorbellExact.TailsTrustedExactly` shows that nothing less will do.
- Scheduler.Hits: the source also drops candidates whose images do not match the request's; the scheduler's runs are over requests without images, and `ImageReuse` says when a resume with images is cold.
- SchedAdmit.ChoiceOk: the same holds here and for `SchedAdmit.GridHitsAre`, `SchedAdmit.ChoiceIsLongest`, `ServeLoops.FindBest` and `BatchScheduling.BatchScheduler.Admit`.
- Lockstep.RanksNeverPart: requests carry no images, which the source ships on a channel of its own; forwards and seeded draws are functions of replicated state.
- Exchange.ExchangeSafe: asks for wiped slots or a job without false tags, because `ExchangeExact.FramesTrustedExactly` shows that nothing less will do.
- Nway.NwayProxy.ReceiveTree: what a slot's validation finds is a parameter, as in `DrainBacklog` and `ReceiveUniform`; `NwaySafety` has the slots, and there the proxy's release, which only delays K2, is the partner's hint alone, since K2 looks at the tail itself.
- NwaySafety.TransportSafe: the kernel without the clearing of stale tails, which `NwayClean` adds; the tree epochs; one-shot epochs to all peers have rings of their own and are covered by `Nway` alone.
- AllReduce.TurnSums: words are integers; the fixed order of the additions, which makes floating sums agree bit by bit, is not modelled.
- Forest.PackFits: asks for a positive depth, which `Policy.ScanInRange` guarantees; with zero the source's clamp would panic.
- Rejection.StreamIsAutoregressive: laws are real-valued; float rounding, the device's truncation to top-k and the pseudo-random generator are not modelled.
- Policy.MtpPolicy.Tick: rates and scores are reals, and a calibrated cost of the current depth is positive; the quotient by a cost of zero is infinite in the source.
- TreeWalk.TreeStepIsPlain: stated without penalties or a schema; `TreeExact.TreeExactly` says exactly when a tree step is lossless with them, as `PackExact.PackedIsChainExactly` does for `Forest.ForestIsPlain`.
- BatchScheduling.BatchScheduler.DecodePacked: with packed lanes the plain lanes' forwards run lane by lane, each with its own bookkeeping, instead of all columns first; `Scheduler.BatchLater` shows for the ordinary batch that this reaches the same state.
- Convert.Converter.WriteSharded: the best-effort copies of tokenizer and generation configs are not modelled; serialisation of one tensor file is a single write that may be seen torn.
- The drafters' own networks, hidden-state caches and ring injection beyond which rows are written: they only affect draft quality.
- Doorbell.Prove: the receiving kernel announces its proof before it reads the slot, as the decode kernel does; the other receive kernel announces it afterwards, which no other party can tell apart.
- Timeouts, liveness probes, abort fan-out and pinning: nondeterministic stops that only end a run.
- The agreement token, metrics, logs, dumps, the lossless auditor and drills.
- Object aliasing: scheduler fields hold immutable sequences, so in-place edits of one slot are sequence updates.
