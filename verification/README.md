# Fault tolerance: rendezvous, log multiplexing and cycle reporting

A Dafny model of the coordination core of `nvidia_resiliency_ext/fault_tolerance`, with proofs over every run, every
interleaving or every input. `dafny verify dfyconfig.toml` checks the whole project.

## What is modelled

**The rendezvous barrier** (`Barrier*.dfy`). Launchers share one key-value store. For each round they draw a slot from
an atomic counter, publish a round-stamped rank key and then a slot key by compare-and-set, and wait; one store host
takes a snapshot, assigns ranks, writes them with plain writes and flips `round_done_N` from 0 to 1. `Barrier` is a step
system with one program counter per process; every `check`, `get`, `add`, `compare_set` and `set`, and each key of a
`multi_get` (in any order) or `multi_set`, is a step of its own, so stale readers and slow writers interleave freely. Any process may
stop before any step, new processes may appear at any time, and the host may take part in the round or only close it.
`BarrierInvariant` holds the joint invariant, `BarrierSteps`, `BarrierWrites`, `BarrierKeys` and `BarrierHost` show that each kind
of step keeps it, `BarrierRuns` puts the steps together, `BarrierSources` traces what hosts read back to the node that
published it, and `BarrierTheorems` states what follows for whole runs. `BarrierFetch` says what a snapshot holds,
`BarrierDecisions` what a decision means for those who published, and `BarrierProgress` what a process reaches when it runs
alone. Three fields of the state (`claims`, `plans`, `signalled`) are history: no step reads them.

**Rank assignment** (`RankAssignment`, `RankTheorems`, `RankFeasibility`, `RankLoops`): replacement-group split, infrastructure ordering
with synthetic ranks, the walk over domains in segments, and the counting check in front of it. The loops are methods
proved against functions; the theorems are about the functions, and the host's decision in the barrier uses them.

**The slot fetch** (`SlotFetch`) with its hole search, and **the unhealthy-group set** (`UnhealthyGroups`) as one retry loop
against arbitrary interference and as a step system of many callers.

**The log multiplexer** (`LogLines`, `LogMultiplexer`): line assembly from arbitrary reads of many pipes, filtering,
prefixing, and line-aligned chunking, as a class whose history fields say what each rank has sent.

**SLURM lists** (`SlurmRanges`, `SlurmNodes`): printing node and rank ranges, the sort that must agree with them, and the
watcher script that expands node lists again.

**Nested containers** (`DictUtils`), **cycle-info reporting** (`CycleInfo`: reporter, writer, worker thread) and
**section timing** (`SectionTrace`, `Sections`, `SectionWatch`: calculator, monitor server, and the connection between them).

## Assumptions of the barrier model

- The check-then-set of `open_rendezvous` (ft_rendezvous_barrier.py:2303-2309) and the two of `__init__` (660-665) are
  single steps. Were they split, a slow opener could write 0 over 1, and a slow host could blank a recorded reason.
- Store operations are atomic, keys are never deleted, and an absent key takes a compare-and-set value only when the
  empty value was expected. `is_shutdown` is one read, since a key that exists stays.
- A node descriptor names one process, and its participant data does not change.
- After `signal_no_restart` the process ends: its next shutdown check finds the reason it recorded.
- Marking a replacement group unhealthy is one step in the barrier; its retry loop is the module of its own.
- The last-call gate may hold a round open at any decision; the count of unhealthy nodes may end it at any loop head.

## Where the code differs from its documentation

- `extract_matching_values` hands an empty container directly inside a list to the predicate and keeps it as it is, so
  an empty list there is not turned into a dict (dict_utils.py:69-79). `DictUtils.RebuiltIsAsDicts` gives the exact condition.
- `end_all_sections` promises to close all open sections, but its message names no section, a name that is never
  configured, so nothing is sent and nothing is closed (rank_monitor_client.py:323-324, 494).
  `Sections.Connection.EndAllSections` states it, with `Sections.EndAllLeavesOpen` as the example.
- `_is_section_timeout_elapsed` is to check the limits of all open sections, but its loop overwrites its answer, so
  only the section opened last counts (rank_monitor_server.py:504-526). `SectionWatch.SectionServer.HungReported` says exactly
  when a hung section goes unnoticed, `SectionWatch.HungUnreported` is an example.
- `slurm_sort_addrs` is to sort as the node list does; where a name has no number they may differ (utils.py:645-646, 661-672):
  `SlurmNodes.UnparsedDisagree`.
- The rank-key comment at ft_rendezvous_barrier.py:1778-1784 allows for an absent key; no run reaches that branch.
- A round can exist before its predecessor is closed, when a no-restart signal opens it early (1453-1454, 2286-2309).
  `BarrierTheorems.NextRoundWithoutClose` is such a run, `NextRoundImpliesClosed` and `OrderBreaksOnlyOnSignal` say exactly when.
- `ranks_to_range_str` prints a list that reads back exactly when no rank in it is negative (utils.py:675-691):
  `SlurmRanges.RankTextReadsBack`.

## Model

| member | source | states |
|---|---|---|
| BarrierTheorems.ReturnedRankIsPlanned | src/nvidia_resiliency_ext/fault_tolerance/ft_rendezvous_barrier.py:1747-1806 | In every interleaving, a rank perform_rendezvous returns for a round is the one the host's assignment for that closed round gave this node; it is below min_nodes, and the total is the number of nodes assigned. |
| BarrierTheorems.RanksAreUnique | src/nvidia_resiliency_ext/fault_tolerance/ft_rendezvous_barrier.py:1950-2030 | Any two returns for one round, at any two moments of a run, carry the same total, and equal ranks exactly when they come from the same node. |
| BarrierTheorems.EveryRankHasOneSlot | src/nvidia_resiliency_ext/fault_tolerance/ft_rendezvous_barrier.py:2213-2258 | Each active rank of a planned round goes to exactly one slot, and that slot was published in that round. |
| BarrierTheorems.BlockMatesShareDomain | src/nvidia_resiliency_ext/fault_tolerance/ft_rendezvous_barrier.py:953-984 | With a segment configured, any two nodes that were returned ranks of one aligned block in one round, at any two moments of a run, have the same domain id in the data they publish. |
| BarrierSources.StepSources | src/nvidia_resiliency_ext/fault_tolerance/ft_rendezvous_barrier.py:2153-2182 | Every step keeps each participant in a slot key, in a host's snapshot or in a plan equal to the data of the process it names, and no process's data changes. |
| BarrierSources.RunSources | src/nvidia_resiliency_ext/fault_tolerance/ft_rendezvous_barrier.py:2001-2012 | In every run, what slot keys, snapshots and plans hold about a node is what that node itself published. |
| BarrierTheorems.PlanIsFinal | src/nvidia_resiliency_ext/fault_tolerance/ft_rendezvous_barrier.py:1644-1666 | Once the host has settled on an assignment for a round, no later step of the run changes it. |
| BarrierTheorems.ReadAfterClose | src/nvidia_resiliency_ext/fault_tolerance/ft_rendezvous_barrier.py:1763-1806 | A joined node reading its rank key after the close gets an active rank exactly when the assignment gives its slot one and the key has not moved to a later round. |
| BarrierTheorems.KeysNeverGoBack | src/nvidia_resiliency_ext/fault_tolerance/ft_rendezvous_barrier.py:1234-1274 | Along a run the round stored in a slot or rank key never decreases, a slot value is never replaced by another of its round, and an assigned rank is never replaced by another value of its round. |
| BarrierTheorems.DeadBranches | src/nvidia_resiliency_ext/fault_tolerance/ft_rendezvous_barrier.py:1258-1274 | No run takes the same-round-conflict branch or the absent-rank-key branch; a compare-and-set conflict stops a node only over a value of an older round. |
| BarrierKeys.RankSetCases | src/nvidia_resiliency_ext/fault_tolerance/ft_rendezvous_barrier.py:1264-1274 | The fenced write of a rank key either replaces nothing or an older round, or meets a newer round and retries, or meets a different older round and stops the node. |
| BarrierKeys.SlotSetCases | src/nvidia_resiliency_ext/fault_tolerance/ft_rendezvous_barrier.py:1264-1274 | The same three outcomes for the slot key. |
| BarrierTheorems.ClosedRounds | src/nvidia_resiliency_ext/fault_tolerance/ft_rendezvous_barrier.py:1128-1147 | A closed round stays closed, all earlier rounds are closed, and every rank of its assignment was delivered: the slot's key still holds it or belongs to a later round. |
| BarrierTheorems.DeliveredBeforeClose | src/nvidia_resiliency_ext/fault_tolerance/ft_rendezvous_barrier.py:1641-1666 | When the host is about to write the 1, its round is open and every assigned slot's rank key holds exactly the assigned rank, total and round. |
| BarrierTheorems.ClosedOnce | src/nvidia_resiliency_ext/fault_tolerance/ft_rendezvous_barrier.py:1666 | No two steps of a run close the same round. |
| BarrierRuns.StepMovesDone | src/nvidia_resiliency_ext/fault_tolerance/ft_rendezvous_barrier.py:2303-2309 | Each step leaves the lifecycle keys alone, or creates one absent key as open, or is the store host closing its own open round. |
| BarrierTheorems.ScanFindsFirstOpen | src/nvidia_resiliency_ext/fault_tolerance/ft_rendezvous_barrier.py:1129-1147 | The forward scan leaves a process at the first round that is not closed. |
| BarrierTheorems.NextRoundImpliesClosed | src/nvidia_resiliency_ext/fault_tolerance/ft_rendezvous_barrier.py:2286-2311 | While a round is not closed its successor exists exactly when a no-restart signal has opened it; so a round that exists has a closed predecessor exactly when it was not opened that way or the predecessor was closed since, and otherwise a shutdown reason is recorded. |
| BarrierTheorems.OrderBreaksOnlyOnSignal | src/nvidia_resiliency_ext/fault_tolerance/ft_rendezvous_barrier.py:1399-1414 | A step of a run makes a round exist while its predecessor is not closed exactly when it is the opening half of signal_no_restart, by a process whose own round is not closed and has no successor yet. |
| BarrierTheorems.NextRoundWithoutClose | src/nvidia_resiliency_ext/fault_tolerance/ft_rendezvous_barrier.py:1453-1454 | A concrete run in which round 1 exists while round 0 is still open: the host signals no-restart before closing. |
| BarrierTheorems.RestartOpensNext | src/nvidia_resiliency_ext/fault_tolerance/ft_rendezvous_barrier.py:2303-2309 | A restart, or the opening half of a no-restart signal, by a process of round r makes round r + 1 exist in the next and every later state, open when nobody had created it and otherwise as it was. |
| BarrierTheorems.PeersSeeRestart | src/nvidia_resiliency_ext/fault_tolerance/ft_rendezvous_barrier.py:1099-1112 | Every peer still running round r that polls after that sees the next round. |
| BarrierFetch.FetchReads | src/nvidia_resiliency_ext/fault_tolerance/ft_rendezvous_barrier.py:2142-2182 | At any point of a fetch, whatever others do meanwhile, each slot already read was answered with who had published under it for the round, or with nobody, as the slot stood at some moment since the fetch began. |
| BarrierFetch.SnapshotIsWhole | src/nvidia_resiliency_ext/fault_tolerance/ft_rendezvous_barrier.py:1489-1546 | The snapshot the host goes on to judge has one entry for every slot drawn in the round by the end of the fetch, each answered so. |
| BarrierFetch.PublishedIsSeen | src/nvidia_resiliency_ext/fault_tolerance/ft_rendezvous_barrier.py:1489-1546 | A node that had published for the round when the fetch began is in that snapshot under its slot. |
| BarrierDecisions.PresentMeans | src/nvidia_resiliency_ext/fault_tolerance/ft_rendezvous_barrier.py:1557-1562 | The participants judged are exactly those read from some slot whose replacement group is unset or not marked. |
| BarrierDecisions.VerdictIsFair | src/nvidia_resiliency_ext/fault_tolerance/ft_rendezvous_barrier.py:1557-1661 | In every run the verdict on a completed snapshot is: refuse a candidate without a domain id; else poll on while no placement of the active ranks into aligned one-domain blocks exists; else refuse two participants of one address; else report an indivisible world or clashing infrastructure ranks; else settle a plan that ranks all participants judged. Candidates are those judged whose group fills enough slots. |
| BarrierDecisions.RanksTheUnmarked | src/nvidia_resiliency_ext/fault_tolerance/ft_rendezvous_barrier.py:1557-1661 | When the host settles a plan, a node gets a rank exactly when data of it was read whose group is unset or not marked for the round at that moment. |
| BarrierDecisions.DeadCohortUnranked | src/nvidia_resiliency_ext/fault_tolerance/ft_rendezvous_barrier.py:1548-1562 | Once a node has marked its replacement group in a round, no plan settled later in that round ranks a node of the group. |
| BarrierDecisions.InTimeIsRanked | src/nvidia_resiliency_ext/fault_tolerance/ft_rendezvous_barrier.py:1489-1661 | A node that had published when the fetch began is ranked by the plan settled from that fetch exactly when its group is unset or not marked at the decision. |
| BarrierDecisions.DecisionGoesBy | src/nvidia_resiliency_ext/fault_tolerance/ft_rendezvous_barrier.py:1557-1661 | Every decision of a run takes the host where that verdict calls for: to stop with the error, to poll on, to fail over one address, or to write the ranks; the last-call gate may make it poll on once the constraint is met. |
| BarrierDecisions.FailureMeans | src/nvidia_resiliency_ext/fault_tolerance/ft_rendezvous_barrier.py:1569-1661 | When a decision stops the host, a candidate has no domain id, or the world is not a multiple of the segment, or infrastructure ranks clash, as the error says. |
| BarrierProgress.OpenRoundIsJoined | src/nvidia_resiliency_ext/fault_tolerance/ft_rendezvous_barrier.py:1302-1388 | With no shutdown recorded, a node at Step 0 of an open round comes to draw a slot without help from anyone. |
| BarrierProgress.ClosedRoundsAreSkipped | src/nvidia_resiliency_ext/fault_tolerance/ft_rendezvous_barrier.py:1114-1155 | With no shutdown recorded, a node at Step 0 of a closed round comes to Step 0 of the first round that is not closed on its own. |
| BarrierProgress.JoinerPublishes | src/nvidia_resiliency_ext/fault_tolerance/ft_rendezvous_barrier.py:1955-2012 | In any state a run can reach, a node about to draw a slot in an open round publishes UNASSIGNED and its own data under the next slot on its own, whatever older rounds left under the keys. |
| BarrierProgress.HostCloses | src/nvidia_resiliency_ext/fault_tolerance/ft_rendezvous_barrier.py:1416-1670 | From its loop head, with enough joiners and a verdict to settle on the slots as they stand, the host alone puts every planned rank under its key and closes the round, changing nothing else. |
| BarrierProgress.WaiterReturns | src/nvidia_resiliency_ext/fault_tolerance/ft_rendezvous_barrier.py:1747-1806 | A waiting node of a closed round whose rank key holds an active rank of that round returns with it on its own. |
| BarrierProgress.RoundCompletes | src/nvidia_resiliency_ext/fault_tolerance/ft_rendezvous_barrier.py:1416-1806 | Once such a host has run, a waiting node whose slot the verdict gives an active rank returns with that rank and the total when it runs. |
| BarrierProgress.RestartRejoins | src/nvidia_resiliency_ext/fault_tolerance/ft_rendezvous_barrier.py:2286-2311 | A node that restarts after round r, while r + 1 is not closed and no shutdown is recorded, comes to draw a slot in r + 1 on its own. |
| BarrierTheorems.ReasonIsFinal | src/nvidia_resiliency_ext/fault_tolerance/ft_rendezvous_barrier.py:2275-2284 | Once recorded, the shutdown reason is the same in every later state. |
| BarrierTheorems.FirstReasonWins | src/nvidia_resiliency_ext/fault_tolerance/ft_rendezvous_barrier.py:2275-2284 | A no-restart signal, a shutdown call or the host's failure records its reason when none is recorded, and no later one replaces it. |
| BarrierTheorems.ShutdownChecksStop | src/nvidia_resiliency_ext/fault_tolerance/ft_rendezvous_barrier.py:1276-1300 | Once a reason is recorded every shutdown check ends its process: at Step 0, in the host's loop, and while waiting for the close. |
| BarrierTheorems.SignalReachesEveryone | src/nvidia_resiliency_ext/fault_tolerance/ft_rendezvous_barrier.py:1399-1414 | Once signal_no_restart has opened a round, every process that reads the reason after seeing that round acts on the one reason already recorded, whatever later shutdown calls do: it leaves with it, or goes to Step 0, where its next shutdown check ends it. |
| BarrierTheorems.ExitReasonsAgree | src/nvidia_resiliency_ext/fault_tolerance/ft_rendezvous_barrier.py:2269-2284 | Any two processes that left with a no-restart reason left with the same one. |
| BarrierTheorems.HostNeverShort | src/nvidia_resiliency_ext/fault_tolerance/ft_rendezvous_barrier.py:1566-1666 | With min_nodes a multiple of the segment, the host's assignment can fail only over a missing domain id or duplicate infrastructure ranks, never for insufficient nodes. |
| BarrierTheorems.AcceptedErrors | src/nvidia_resiliency_ext/fault_tolerance/ft_rendezvous_barrier.py:816-885 | For accepted candidates with domain ids, assignment fails exactly when all infrastructure ranks are known and two coincide. |
| BarrierRuns.StepKeeps | src/nvidia_resiliency_ext/fault_tolerance/ft_rendezvous_barrier.py:1234-1806 | Every step of every process keeps the joint invariant (unique slots, rank key before slot key, no join before the previous close, delivered ranks, host ownership of the open plan). |
| BarrierRuns.RunKeeps | src/nvidia_resiliency_ext/fault_tolerance/ft_rendezvous_barrier.py:599-2311 | The joint invariant holds in every state of every run. |
| RankTheorems.AssignmentIsBijection | src/nvidia_resiliency_ext/fault_tolerance/ft_rendezvous_barrier.py:932-1010 | A successful assignment maps all rankable nodes one to one onto [0, n), active candidates below the standby-only nodes, and has at least world_size active candidates. |
| RankTheorems.AlignedBlocksShareDomain | src/nvidia_resiliency_ext/fault_tolerance/ft_rendezvous_barrier.py:953-984 | Every aligned block of segment ranks below world_size lies in one domain. |
| RankTheorems.DomainFollowsInfraOrder | src/nvidia_resiliency_ext/fault_tolerance/ft_rendezvous_barrier.py:932-951 | Two active candidates of one domain are ranked in infrastructure order, whether they end up active or standby. |
| RankTheorems.ActiveRanksFollowTopology | src/nvidia_resiliency_ext/fault_tolerance/ft_rendezvous_barrier.py:945-984 | Active ranks visit the domains in the order of their first nodes. |
| RankTheorems.SpareRanksFollowTopology | src/nvidia_resiliency_ext/fault_tolerance/ft_rendezvous_barrier.py:945-1005 | The candidates left over are ranked domain by domain in the same order. |
| RankTheorems.StandbyFollowsInfraOrder | src/nvidia_resiliency_ext/fault_tolerance/ft_rendezvous_barrier.py:1007-1017 | Nodes that are standby only are ranked in infrastructure order. |
| RankFeasibility.EnoughIsPlaceable | src/nvidia_resiliency_ext/fault_tolerance/ft_rendezvous_barrier.py:816-840 | The counting check accepts exactly the candidates among whom the active ranks can be placed, in any way at all, with every aligned block in one domain. |
| RankFeasibility.AssignmentOutcome | src/nvidia_resiliency_ext/fault_tolerance/ft_rendezvous_barrier.py:887-1005 | For distinct nodes the assignment fails exactly when the world is not a multiple of the segment, else two known infrastructure ranks coincide, else a candidate has no domain id, else no placement exists, and reports the first of these. |
| RankTheorems.ArrivalOrderIrrelevant | src/nvidia_resiliency_ext/fault_tolerance/ft_rendezvous_barrier.py:848-1017 | For distinct nodes, any permutation of the two participant lists gives the same result, error or map, with real and with synthetic infrastructure ranks. |
| RankTheorems.CountingMatchesWalk | src/nvidia_resiliency_ext/fault_tolerance/ft_rendezvous_barrier.py:816-997 | With segment dividing world_size, the counting check accepts exactly the candidate sets on which the greedy walk reaches world_size. |
| RankTheorems.CheckedSnapshotIsSufficient | src/nvidia_resiliency_ext/fault_tolerance/ft_rendezvous_barrier.py:1566-1576 | An accepted snapshot never fails for insufficient nodes; a refused one never yields an assignment. |
| RankAssignment.SplitByCompleteReplacementGroups | src/nvidia_resiliency_ext/fault_tolerance/ft_rendezvous_barrier.py:763-788 | The counting loop and the two comprehensions compute the complete-group and leftover buckets. |
| RankAssignment.SplitPartitions | src/nvidia_resiliency_ext/fault_tolerance/ft_rendezvous_barrier.py:763-788 | Every participant lands in exactly one bucket, the active one exactly when its group is complete. |
| RankLoops.CanMeetSegmentConstraint | src/nvidia_resiliency_ext/fault_tolerance/ft_rendezvous_barrier.py:816-840 | The counting loop returns the feasibility of the candidates, or the missing-domain error. |
| RankLoops.AssignGroupRanks | src/nvidia_resiliency_ext/fault_tolerance/ft_rendezvous_barrier.py:887-1022 | The assignment loops compute, for distinct nodes, the specified assignment with its errors. |
| RankLoops.RankDomains | src/nvidia_resiliency_ext/fault_tolerance/ft_rendezvous_barrier.py:956-1005 | The walk over sorted domains hands out the ranks of the specified order, or reports insufficient nodes exactly when the walk falls short. |
| SlotFetch.PresentSlotKeys | src/nvidia_resiliency_ext/fault_tolerance/ft_rendezvous_barrier.py:2060-2076 | While other processes may add keys, the search returns every key that existed throughout exactly as often as asked for, only keys that exist when it ends, and uses at most 1 + 2 * holes * Halvings(n) checks. |
| SlotFetch.HalvingsIsLog | src/nvidia_resiliency_ext/fault_tolerance/ft_rendezvous_barrier.py:2053-2055 | Halvings(n) is the logarithm of n to base 2, rounded up. |
| SlotFetch.FetchRaw | src/nvidia_resiliency_ext/fault_tolerance/ft_rendezvous_barrier.py:2142-2148 | While other processes add slot keys and overwrite their values, the fast path and the degraded path both answer each key with what it held, or its absence, at some moment of the fetch. |
| SlotFetch.GetAllParticipants | src/nvidia_resiliency_ext/fault_tolerance/ft_rendezvous_barrier.py:2112-2182 | Whichever path is taken, the result is the given list followed by one entry per slot in order, each the participant that slot held packed for the round asked for, at some moment of the fetch, and None exactly when it held none; a start index below 1 is an error. |
| SlotFetch.StillFetch | src/nvidia_resiliency_ext/fault_tolerance/ft_rendezvous_barrier.py:2112-2182 | Against a store that stands still each entry is the participant the slot holds for the round, or None when it holds none, and the fetch is the slot-by-slot read. |
| SlotFetch.FetchInParts | src/nvidia_resiliency_ext/fault_tolerance/ft_rendezvous_barrier.py:2106-2109 | Fetching the rest of the slots later onto the first part equals fetching all of them. |
| SlotFetch.FetchMatchesBarrier | src/nvidia_resiliency_ext/fault_tolerance/ft_rendezvous_barrier.py:2153-2180 | Over the slot keys of any sequence of barrier states, every slot of the fetch is answered with who had published for the round under it in one of these states, or with nobody. |
| UnhealthyGroups.MarkUnhealthy | src/nvidia_resiliency_ext/fault_tolerance/ft_rendezvous_barrier.py:716-749 | Against any growth of the key by others, the retry loop ends with exactly what was there plus its own id, and its failed compare-and-sets are at most as many as the ids it finally saw. |
| UnhealthyGroups.SwapCases | src/nvidia_resiliency_ext/fault_tolerance/ft_rendezvous_barrier.py:732-749 | A compare-and-set adds exactly the caller's id, or changes nothing and has seen strictly more ids. |
| UnhealthyGroups.SetOnlyGrows | src/nvidia_resiliency_ext/fault_tolerance/ft_rendezvous_barrier.py:716-749 | With any number of concurrent callers the stored set only grows. |
| UnhealthyGroups.NoLostUpdate | src/nvidia_resiliency_ext/fault_tolerance/ft_rendezvous_barrier.py:729-741 | A caller that has returned has its id in the set ever after, and the set holds only requested ids. |
| UnhealthyGroups.RetriesBounded | src/nvidia_resiliency_ext/fault_tolerance/ft_rendezvous_barrier.py:721-749 | Failed attempts are at most the number of distinct ids, strictly fewer while the caller's id is still to be added. |
| LogLines.LinesAcrossCut | src/nvidia_resiliency_ext/fault_tolerance/per_cycle_logs.py:1044-1061 | Cutting a text anywhere and prepending the buffered tail to the second part gives the same lines and the same tail. |
| LogLines.LinesAndTail | src/nvidia_resiliency_ext/fault_tolerance/per_cycle_logs.py:1044-1056 | A text is its complete lines and its tail; each line ends in its only newline and the tail has none. |
| LogLines.PrependBuffer | src/nvidia_resiliency_ext/fault_tolerance/per_cycle_logs.py:1052-1056 | Prepending the buffer to the first split line is splitting the buffer and the text together. |
| LogLines.ChunksAreValid | src/nvidia_resiliency_ext/fault_tolerance/per_cycle_logs.py:878-899 | Chunking keeps the lines in order and cuts only between them; every chunk is within the limit or a single line. |
| LogLines.FewestChunks | src/nvidia_resiliency_ext/fault_tolerance/per_cycle_logs.py:878-899 | No order-preserving cut within the limit uses fewer chunks. |
| LogLines.BytesOfText | src/nvidia_resiliency_ext/fault_tolerance/per_cycle_logs.py:884-895 | The running byte count of a chunk is the UTF-8 size of the text queued. |
| LogLines.FilterMeans | src/nvidia_resiliency_ext/fault_tolerance/per_cycle_logs.py:101-150 | A line is filtered exactly when it has at most 65 characters and, without the white space around it, is one of the two section headers or one to three digits, white space and a device name. |
| LogLines.WorkerLinesKept | src/nvidia_resiliency_ext/fault_tolerance/per_cycle_logs.py:857-875 | Of a worker's lines exactly the others are written, in order, each once with the prefix. |
| LogLines.QuietTextIsWhole | src/nvidia_resiliency_ext/fault_tolerance/per_cycle_logs.py:857-875 | Lines without such a listing are all written. |
| LogLines.CleanMeans | src/nvidia_resiliency_ext/fault_tolerance/per_cycle_logs.py:1036-1038 | Text without NUL bytes is left alone, and no NUL is left in any. |
| LogLines.CharBytesFewest | src/nvidia_resiliency_ext/fault_tolerance/per_cycle_logs.py:884 | A character is counted with the fewest UTF-8 bytes whose payload holds its code. |
| LogMultiplexer.WorkerQueue | src/nvidia_resiliency_ext/fault_tolerance/per_cycle_logs.py:971-1065 | What a reader has queued for a worker, whatever the reads, is its complete lines in order, each once with the prefix, except lines of device listings, and after its end the unfinished tail as one more line. |
| LogMultiplexer.PrefixMeans | src/nvidia_resiliency_ext/fault_tolerance/per_cycle_logs.py:872-875 | A worker's prefix is its global rank, right-aligned with spaces to the width, and a colon and a space; the launcher has none. |
| LogMultiplexer.PrefixesTellRanks | src/nvidia_resiliency_ext/fault_tolerance/per_cycle_logs.py:872-875 | Workers with one prefix have one global rank. |
| LogMultiplexer.PrefixesLineUp | src/nvidia_resiliency_ext/fault_tolerance/per_cycle_logs.py:780-785 | The prefixes of all ranks of the world have one length. |
| LogMultiplexer.InterleavingIrrelevant | src/nvidia_resiliency_ext/fault_tolerance/per_cycle_logs.py:980-1000 | What is heard from a pipe, and whether it ended, depends only on that pipe's own events. |
| LogMultiplexer.SameStreamSameLines | src/nvidia_resiliency_ext/fault_tolerance/per_cycle_logs.py:1031-1065 | Two readers that heard the same text from a rank, however cut and interleaved, queued the same lines for it: kept complete lines with prefix, and after the end the tail with one newline. |
| LogMultiplexer.LauncherVerbatim | src/nvidia_resiliency_ext/fault_tolerance/per_cycle_logs.py:859-869 | The launcher's own stream is queued verbatim, up to one final newline. |
| LogMultiplexer.Reader.QueueLines | src/nvidia_resiliency_ext/fault_tolerance/per_cycle_logs.py:843-899 | Exactly the greedy chunks of the kept, prefixed lines of the rank are queued; each item is whole lines of one rank for that rank's file. |
| LogMultiplexer.Reader.FlushIncompleteLine | src/nvidia_resiliency_ext/fault_tolerance/per_cycle_logs.py:901-924 | A non-empty tail is queued with prefix and one newline; an empty one queues nothing. |
| LogMultiplexer.Reader.CutLines | src/nvidia_resiliency_ext/fault_tolerance/per_cycle_logs.py:1044-1061 | One read turns buffer and text into complete lines and a new buffer. |
| LogMultiplexer.Reader.TakeText | src/nvidia_resiliency_ext/fault_tolerance/per_cycle_logs.py:1031-1065 | After a read the queue holds what the text received so far calls for. |
| LogMultiplexer.Reader.ClosePipe | src/nvidia_resiliency_ext/fault_tolerance/per_cycle_logs.py:1008-1030 | At the end of a pipe its tail is flushed and the pipe forgotten. |
| LogMultiplexer.Reader.ProcessPipeEvents | src/nvidia_resiliency_ext/fault_tolerance/per_cycle_logs.py:971-1065 | Any batch of events keeps the queue equal to what the texts heard call for, hears each pipe up to its end, and ignores unknown descriptors. |
| SlurmRanges.ExpandRanges | src/nvidia_resiliency_ext/fault_tolerance/utils.py:599-614 | Expanding the runs gives back any list of numbers, in its order. |
| SlurmRanges.RangesAreMaximal | src/nvidia_resiliency_ext/fault_tolerance/utils.py:599-614 | No two neighbouring runs could have been printed as one. |
| SlurmRanges.NumbersToSlurmRanges | src/nvidia_resiliency_ext/fault_tolerance/utils.py:599-614 | The loop prints exactly the runs, zero-filled. |
| SlurmRanges.RanksToRangeStr | src/nvidia_resiliency_ext/fault_tolerance/utils.py:675-691 | The loop prints the runs of the ranks, joined by commas. |
| SlurmRanges.RankTextRoundTrip | src/nvidia_resiliency_ext/fault_tolerance/utils.py:675-691 | Reading the printed list gives exactly the non-negative ranks, in their order. |
| SlurmRanges.RankTextReadsBack | src/nvidia_resiliency_ext/fault_tolerance/utils.py:675-691 | For every list, reading the printed text gives the list back exactly when no rank is negative. |
| SlurmRanges.MinusOneIsLost | src/nvidia_resiliency_ext/fault_tolerance/utils.py:675-691 | The list [-1] is printed as -1 and read as no rank at all. |
| SlurmNodes.ParseSpells | src/nvidia_resiliency_ext/fault_tolerance/utils.py:591-596 | A parsed name is its prefix followed by all its trailing digits. |
| SlurmNodes.HostnamesToSlurmNodelist | src/nvidia_resiliency_ext/fault_tolerance/utils.py:617-658 | The grouping and printing loops give the specified node list. |
| SlurmNodes.LayoutKeeps | src/nvidia_resiliency_ext/fault_tolerance/utils.py:644-658 | Names with distinct (prefix, number) are each listed once. |
| SlurmNodes.SortMatchesLayout | src/nvidia_resiliency_ext/fault_tolerance/utils.py:661-672 | The sorted addresses are the names in printed order. |
| SlurmNodes.SplitPrinted | examples/fault_tolerance/deployment/watch/nvrx_watch/parsing.py:48-64 | The watcher's top-level split of a printed node list gives its tokens. |
| SlurmNodes.ExpandGroup | examples/fault_tolerance/deployment/watch/nvrx_watch/parsing.py:67-95 | The watcher expands one printed group to its names, at their written width. |
| SlurmNodes.NodeListMatchesSort | src/nvidia_resiliency_ext/fault_tolerance/utils.py:617-672 | For distinct short names with numeric suffixes of one width per prefix, the watcher's expansion of the printed node list is the slurm_sort_addrs order. |
| SlurmNodes.ShortMeans | src/nvidia_resiliency_ext/fault_tolerance/utils.py:637 | The short name is what stands before the first dot, without the white space around it. |
| SlurmNodes.UnparsedListed | src/nvidia_resiliency_ext/fault_tolerance/utils.py:642-646 | When a name has no number the list is all short names of non-empty addresses in string order, each once. |
| SlurmNodes.UnparsedDisagree | src/nvidia_resiliency_ext/fault_tolerance/utils.py:661-672 | Of z1 and b the printed list has b first and the sort z1. |
| SlurmNodes.NodesAndRanksLineUp | src/nvidia_resiliency_ext/fault_tolerance/cycle_info_writer.py:414-422 | Element i of the expanded node list and element i of the expanded rank list belong to the same node. |
| DictUtils.ExtractMatchingValues | src/nvidia_resiliency_ext/fault_tolerance/dict_utils.py:47-83 | The recursive loops compute the two halves; a non-container argument is the error. |
| DictUtils.MergeInto | src/nvidia_resiliency_ext/fault_tolerance/dict_utils.py:222-241 | The recursive loops compute the specified merge, or stop where the source raises. |
| DictUtils.SplitThenMerge | src/nvidia_resiliency_ext/fault_tolerance/dict_utils.py:32-83 | For any container and predicate, merging the two halves never raises and rebuilds the container (see the next row for lists). |
| DictUtils.RebuiltIsAsDicts | src/nvidia_resiliency_ext/fault_tolerance/dict_utils.py:69-79 | What is rebuilt is the original with lists turned into index-keyed dicts exactly when no empty list sits directly inside a list. |
| DictUtils.EmptyListInListStays | src/nvidia_resiliency_ext/fault_tolerance/dict_utils.py:69-79 | A list of one empty list comes back as a dict whose one element is still that list. |
| DictUtils.EmptiesLand | src/nvidia_resiliency_ext/fault_tolerance/dict_utils.py:53-79 | An empty container directly in a list goes whole into the half the predicate names; elsewhere it goes into the rest as an empty dict, and into the matching half not at all. |
| DictUtils.MergeSucceeds | src/nvidia_resiliency_ext/fault_tolerance/dict_utils.py:222-241 | A merge succeeds exactly when at no path both sides hold something but two dicts or two lists of one length. |
| DictUtils.MergeHolds | src/nvidia_resiliency_ext/fault_tolerance/dict_utils.py:222-241 | At every path the merge holds what the first side holds there, or else what the second holds: leaf, dict or list of that length. |
| DictUtils.LeavesLand | src/nvidia_resiliency_ext/fault_tolerance/dict_utils.py:53-79 | A leaf is found at its path in the matching half exactly when the original has it there and it matches, and in the other half exactly when it does not match. |
| CycleInfo.Writer.WriteCycleStart | src/nvidia_resiliency_ext/fault_tolerance/cycle_info_writer.py:122-149 | A start enqueues create and remembers the cycle, or does nothing after shutdown. |
| CycleInfo.Writer.UpdateCycleEnd | src/nvidia_resiliency_ext/fault_tolerance/cycle_info_writer.py:151-174 | An end enqueues update and forgets that cycle, or does nothing after shutdown. |
| CycleInfo.Writer.RequestShutdown | src/nvidia_resiliency_ext/fault_tolerance/cycle_info_writer.py:176-199 | Shutdown raises the flag and enqueues a fallback update for an open cycle, then the shutdown task. |
| CycleInfo.ReporterObject.ReportCycleStart | src/nvidia_resiliency_ext/fault_tolerance/cycle_info_writer.py:349-375 | A start closes the open cycle first, and is refused after shutdown or for a cycle number already started. |
| CycleInfo.ReporterObject.ReportCycleEnd | src/nvidia_resiliency_ext/fault_tolerance/cycle_info_writer.py:377-388 | An end is reported once per open cycle. |
| CycleInfo.ReporterObject.ShutDown | src/nvidia_resiliency_ext/fault_tolerance/cycle_info_writer.py:390-395 | The open cycle is ended before the writer is told to stop, once; the writer's own fallback never fires. |
| CycleInfo.CallsMean | src/nvidia_resiliency_ext/fault_tolerance/cycle_info_writer.py:349-395 | An end ends the open cycle, a start of a new number opens its cycle and ends the one before, a shutdown ends it for good, and after a shutdown no call does anything. |
| CycleInfo.ShutdownFinishes | src/nvidia_resiliency_ext/fault_tolerance/cycle_info_writer.py:201-225 | Once a shutdown call has returned, the worker on its own performs every task that is left, in order, and exits. |
| CycleInfo.QueueAlternates | src/nvidia_resiliency_ext/fault_tolerance/cycle_info_writer.py:176-225 | In every interleaving of calls and worker steps the tasks put are create and update of distinct cycles in turn, in the order performed, with at most one shutdown at the end. |
| CycleInfo.NothingLeftBehind | src/nvidia_resiliency_ext/fault_tolerance/cycle_info_writer.py:201-225 | When the worker has exited no create or update is left, now or later, and every reported cycle's file has its end time, written once. |
| SectionTrace.LongestClosed | src/nvidia_resiliency_ext/fault_tolerance/timeouts_calc.py:117-125 | A close adds one interval, from its opening: the new maximum is the longest closed interval. |
| SectionTrace.LongestKept | src/nvidia_resiliency_ext/fault_tolerance/timeouts_calc.py:108-125 | No other event changes a section's longest closed interval. |
| SectionTrace.QuietStep | src/nvidia_resiliency_ext/fault_tolerance/timeouts_calc.py:277-281 | An open or a bump outside sections adds the stretch since the last close; nothing else changes the longest such stretch. |
| SectionTrace.MeasureOpen | src/nvidia_resiliency_ext/fault_tolerance/timeouts_calc.py:108-115 | An open or bump keeps every running maximum equal to the one the trace calls for. |
| SectionTrace.MeasureClose | src/nvidia_resiliency_ext/fault_tolerance/timeouts_calc.py:117-125 | So does a close, whatever other sections overlap it. |
| Sections.TimeoutsCalc.OpenSection | src/nvidia_resiliency_ext/fault_tolerance/timeouts_calc.py:108-115 | An open section is refused unchanged; otherwise all maxima still measure the trace. |
| Sections.TimeoutsCalc.CloseSection | src/nvidia_resiliency_ext/fault_tolerance/timeouts_calc.py:117-125 | A section that is not open is refused unchanged; otherwise all maxima still measure the trace. |
| Sections.TimeoutsCalc.Update | src/nvidia_resiliency_ext/fault_tolerance/timeouts_calc.py:127-144 | Unknown names are refused, also by close-all; open and close, with or without a name, extend the trace by their event or are refused unchanged; close-all adds one close for each section that is no longer open, leaves the others, and succeeds, with none open, exactly when every open section has a maximum. |
| Sections.TimeoutsCalc.MaybeBump | src/nvidia_resiliency_ext/fault_tolerance/timeouts_calc.py:277-281 | An explicit bump ends a stretch outside sections. |
| SectionWatch.SectionServer.HandleInit | src/nvidia_resiliency_ext/fault_tolerance/rank_monitor_server.py:275-280 | A new connection starts with no section open and an out-of-section time. |
| SectionWatch.SectionServer.HandleSection | src/nvidia_resiliency_ext/fault_tolerance/rank_monitor_server.py:312-367 | A rejected message changes neither the open sections nor the out-of-section time; an accepted open stores the section with the time it is handled; a close removes exactly it and sets the out-of-section time when it was the last; close-all removes all. |
| SectionWatch.SectionServer.HandleConnectionLost | src/nvidia_resiliency_ext/fault_tolerance/rank_monitor_server.py:369-391 | A lost connection clears sections, times and iterations. |
| SectionWatch.TimesAreOpenings | src/nvidia_resiliency_ext/fault_tolerance/rank_monitor_server.py:327-352 | A section is stored with a time exactly when some handled message opened it at that time: no end of it since, and an end between any earlier open of it and that message. |
| SectionWatch.OrderIsOpening | src/nvidia_resiliency_ext/fault_tolerance/rank_monitor_server.py:327-352 | The open sections stand in the order in which they were opened. |
| SectionWatch.SectionServer.TimedOut | src/nvidia_resiliency_ext/fault_tolerance/rank_monitor_server.py:503-543 | While sections are open the check answers for the section opened last; otherwise for the time outside sections, unless no step has been seen yet under limits without warm-up. |
| SectionWatch.SectionServer.HungReported | src/nvidia_resiliency_ext/fault_tolerance/rank_monitor_server.py:504-526 | The check agrees with: some open section exceeds its limit, exactly when the section opened last exceeds its own or none does. |
| SectionWatch.HungUnreported | src/nvidia_resiliency_ext/fault_tolerance/rank_monitor_server.py:504-526 | A server with a section far over its limit for which the check answers no. |
| Sections.Connection.OpenedAt | src/nvidia_resiliency_ext/fault_tolerance/rank_monitor_server.py:327-352 | Over a connection each section the server holds open is stored with the time it handled the message that opened it. |
| Sections.Connection.Send | src/nvidia_resiliency_ext/fault_tolerance/rank_monitor_client.py:328-366 | After any call, rejected ones included, the client and the server (once it has read what is on the way) hold the same set; the call raises exactly when the message is rejected. A section that is not configured changes nothing on either side; with skip_response the message is on the way afterwards, otherwise nothing is. |
| Sections.Connection.Deliver | src/nvidia_resiliency_ext/fault_tolerance/rank_monitor_server.py:312-367 | The server takes the next message, its open set follows it, and the two sides still agree. |
| Sections.Connection.EndAllSections | src/nvidia_resiliency_ext/fault_tolerance/rank_monitor_client.py:489-494 | The close-all call names no section, so it sends nothing and changes neither the client nor the server, unlike its documentation: it leaves no section open exactly when none was open. |
| Sections.EndAllLeavesOpen | src/nvidia_resiliency_ext/fault_tolerance/rank_monitor_client.py:489-494 | A connection whose one section is still open on both sides after the close-all call. |
| Sections.Connection.CaughtUp | src/nvidia_resiliency_ext/fault_tolerance/rank_monitor_server.py:312-367 | With nothing on the way both sides agree, and the server's out-of-section time is unset exactly while the client has a section open. |

## Left out

- TCPStore networking, JSON encoding of store values, health checks, domain-id parsing, signals, profiling, logging, attribution requests and cycle-info calls inside the barrier: I/O around the protocol; a failure there is a process stopping.
- Liveness and wall-clock limits: the join timeout is one more way to stop.
- The previous-active last-call gate's clock: its answer is free in the model, so the theorems hold for every answer it can give.
- Slot and rank values that do not decode, and the unhealthy-count key: the barrier's processes publish only well-formed values.
- `_remember_previous_active_membership` and the lists of active and standby addresses kept for cycle info: host-local copies of the assignment.
- LogMultiplexer.Reader.ProcessPipeEvents: texts have no line separator other than '\n'; decoding of bytes, and cycle switches with their flush, are not modelled.
- LogLines.ChunksAreValid: lines are not blank, as a complete line holds at least its newline.
- Unicode digits and white space beyond ASCII in log filtering and host-name parsing, and host names containing newlines.
- The file-writing and gRPC threads behind the log queue: they consume the queue in order.
- SlurmNodes.NodeListMatchesSort: short names hold no '[', ']' or ','; lists with unparsed names or mixed suffix widths are printed and sorted by different rules and are not claimed to agree.
- The watcher's scripts other than node-list expansion.
- DictUtils.MergeInto: works on values; update of the first argument in place, and sharing between the two halves and the original, are not modelled.
- `extract_matching_values` with `return_lists_as_dicts=False`, and the other dict helpers: no round trip to prove.
- CycleInfo: file contents other than end time and generation, I/O errors, the `.current` link, and a writer shut down without its reporter.
- Heartbeat timing, timeout merging and smoothing, and synchronisation across ranks in `timeouts_calc.py`: maxima and arithmetic without state to relate.
- Section times are real numbers: floating-point rounding is not modelled.
- The server's heartbeat checks, logging and restart state machine.
