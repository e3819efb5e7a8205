# Verified model of the ATLAHS workload tools and simulator

This project models, in Dafny, the chain from workload generation to simulation: the generators
that write GOAL schedules, the binary schedule format, the dependency tracker, and the LogGOPS
event loop that executes schedules, together with a few smaller algorithms around them. What is
proved holds for all inputs, all schedules and all runs.

`dafny verify dfyconfig.toml` checks the whole project.

## Structure

- **Event loop.** `EventLoop` defines one iteration as a function of the state. The item popped
  is any one of the earliest, and noise is any non-negative number, so a statement about all runs
  covers every tie order and every noise trace. `Simulator` is the loop itself, a class whose
  methods update queues and clocks one after the other and are proved to perform these
  iterations. `Effects` bounds what handling an item can change; `Accounting` and `ExactlyOnce`
  keep books on where each operation is; `Runs`, `Termination` and `Completion` draw the
  conclusions for whole runs. `Matching` says what meets what, `ExactTimes` what each operation
  costs, `IssueTimes` (with `StartTimes`) when operations become ready, and `TimeOrder` when
  popped times go back; `Timing` and `CriticalPath` bound completion times, and `Limits` shows by
  runs where the promises end.
- **Dependency tracker and binary format.** `Schedule` and `DependencyTracker` describe nodes,
  edges and counters, `SerializedGraph` the counters updated in place and the traversal of the
  DOT dump. `ScheduleBuilder`, `ScheduleWriter` and `ScheduleReader` build a graph, write it byte
  by byte into a file after the ranks before it, and read it back; `ScheduleFormat` is the layout.
- **Generators.** `Goal` is the schedule under construction. `RecursiveDoubling`,
  `HalvingDoubling`, `BinomialTree` and `Dissemination` hold the loops that emit the operations
  of one rank, and the theorems about all ranks together; `TreeFlow` tells from the operations
  alone what moves along the trees.
- **Traces.** `TraceConversion` says what each traced call adds, `TraceReader` is the code that
  does it, `TraceOrder` and `TraceProgram` prove that the result is acyclic and in program order,
  and `TraceBoundary` where that order ends. `TraceWaits` says who waits for whose completion,
  `TraceBodies` which operations each call adds.
- **Others.** `Topology` and `Congestion` (routes and the congestion index), `Noise`,
  `ShellMaximum`, `Intervals`, `JobMerging`. `Digraph`, `Finite`, `Powers`,
  `Bytes` and `Wrappers` are helpers.

A channel is a source, a destination and a tag. "Agreeing" means that all sends and receives of a
channel are on the same side of the eager limit S; a "one-to-one" schedule has one send and one
receive of equal size per channel.

## Findings

Where a promise does not hold on all inputs, the code was kept and the exact boundary proved.

- A receive that finds its message in the unexpected queue decides by its own size, not the
  message's, whether the send waits for it: the send is completed exactly once if and only if the
  two sizes are on the same side of S (`Limits.CompletedOnceIffAgreeing`). Two hosts are enough
  for a send that is completed twice, or never (`Limits.TakenByOtherSize`).
- Nodes freed by a start dependency get start time 0. Popped times go back if and only if such a
  node's own clock was earlier too, as it always is for a receive (`TimeOrder.PoppedTimeDropsIff`,
  with a run of three nodes in `Limits.RunGoesBack`); bounds on completion times are for schedules
  without start dependencies.
- The partners of halving and doubling all exist if and only if the communicator size is a power
  of two, and its allgather mirrors the message sizes of the reduce-scatter if and only if the
  data size leaves remainder at most one (`HalvingDoubling.PeersExistIff`,
  `HalvingDoubling.MirrorIff`).
- With a single host a traced collective is empty and its completion does not wait for the
  calculation before it (`TraceProgram.OrderedIffTwoHosts`).
- A Finalize clears what is pending: the calculation after it waits for nothing that came before
  (`TraceBoundary.OrderKeptIff`).
- The noise lookup never counts the first event of the trace for operations that start no later
  than it, and counts all events tied with it for one that starts with them (`Noise.Accumulate`).
- The shortcut and the hand-over rule name a binding shell under exact conditions on the blocks
  between shells (`ShellMaximum.ShortcutBindsIff`, `ShellMaximum.HandOverBindsIff`); a group of 20
  ranks has a member for which both can be wrong (`ShellMaximum.StrandedMember`).
- An offset equal to the number of nodes passes the bounds check of the reader, and the bytes
  behind the last record are taken for a node (`ScheduleReader.RawBehindLast`).
- Round-robin mapping fails for a job of no ranks (`JobMerging.RoundRobinMapping`).

## Model

| member | source | states |
|---|---|---|
| Simulator.Simulator.Run | sim/LogGOPSim/LogGOPSim.cpp:296-804 | The main loop ends for every tie order and every noise; with one send and one receive per channel it has then done every operation exactly when the event graph is acyclic. |
| Simulator.Simulator.Iterate | sim/LogGOPSim/LogGOPSim.cpp:300-788 | One iteration, with its queues, clocks and trackers updated field by field, does what the step relation says, whichever item the priority queue yields. |
| Simulator.Simulator.IterateEarliest | sim/LogGOPSim/LogGOPSim.cpp:302-303 | Popping any earliest item with any noise leads from a reachable state to a reachable state and lowers the termination measure. |
| Simulator.Simulator.constructor | sim/LogGOPSim/LogGOPSim.cpp:251-292 | The roots of all hosts are queued at time 0. |
| Simulator.Simulator.HandleCalc | sim/LogGOPSim/LogGOPSim.cpp:314-341 | A calculation takes its CPU, starts and completes, or is put back at the time the CPU is free. |
| Simulator.Simulator.HandleSend | sim/LogGOPSim/LogGOPSim.cpp:343-418 | A send takes CPU and NIC, posts its message, and completes if eager, or is put back. |
| Simulator.Simulator.HandleRecv | sim/LogGOPSim/LogGOPSim.cpp:419-535 | A receive starts, and meets the first unexpected message of its channel or is posted. |
| Simulator.Simulator.HandleMsg | sim/LogGOPSim/LogGOPSim.cpp:537-719 | A message meets the first posted receive, or both go back when the host is busy, or the message becomes unexpected. |
| Simulator.Simulator.MatchReceive | sim/LogGOPSim/LogGOPSim.cpp:122-137 | Takes the head of the receive queue of the channel, if there is one, and nothing else. |
| Simulator.Simulator.ReleaseFreed | sim/LogGOPSim/LogGOPSim.cpp:736-788 | All nodes a host has freed are queued, each at the time its kind demands, and the list is emptied. |
| Runs.AtMostOnce | sim/LogGOPSim/LogGOPSim.cpp:296-788 | In every reachable state an operation has been started at most once, and completed at most once and only if started. |
| Runs.Conservation | sim/LogGOPSim/LogGOPSim.cpp:397-404 | Messages and receives are conserved: in transit, queued or matched, exactly once; completion goes with the start (calculations, eager sends) or with the match. |
| Runs.NeverBoth | sim/LogGOPSim/LogGOPSim.cpp:442-533 | A channel never has both its receive queue and its unexpected queue in use. |
| Matching.MatchedPairsFit | sim/LogGOPSim/LogGOPSim.cpp:122-137 | In every run of every schedule a matched pair is a send and a receive of one tag, each on the other's peer. |
| Matching.QueuesAgree | sim/LogGOPSim/LogGOPSim.cpp:122-137 | What waits in one queue agrees in host, peer and tag. |
| Matching.NeverBothWaiting | sim/LogGOPSim/LogGOPSim.cpp:442-533 | A message and a receive that fit in tag, source and destination are never both left waiting, in any run of any schedule. |
| Matching.ServedInTurn | sim/LogGOPSim/LogGOPSim.cpp:122-137 | Along every run whoever waits in a queue is put last and the first is taken; a receive whose host is busy goes to the end. |
| Runs.IssuedIffFree | sim/LogGOPSim/LogGOPSim.cpp:736-788 | An operation has been queued or started exactly when all it depends on, by either kind of edge, has happened. |
| Runs.ReachedInv | sim/LogGOPSim/LogGOPSim.cpp:296-788 | Every reachable state satisfies the global invariant. |
| Runs.ReachedShape | sim/LogGOPSim/LogGOPSim.cpp:296-788 | Every state of every run of any schedule is well-formed with all freed nodes pushed, and a run goes on as long as items are queued. |
| Runs.AgreedInv | sim/LogGOPSim/LogGOPSim.cpp:296-788 | The invariant holds in any schedule as long as every unexpected message taken so far was on its receive's side of S. |
| ExactlyOnce.StepKeepsInv | sim/LogGOPSim/LogGOPSim.cpp:312-788 | Every iteration keeps the invariant, even if the item popped is not an earliest one, unless it is a receive taking a message from the other side of S. |
| ExactlyOnce.RotateCore | sim/LogGOPSim/LogGOPSim.cpp:660-684 | Putting a message and its receive back, the receive at the tail of its queue, loses and duplicates nothing. |
| Effects.RunExecuted | sim/LogGOPSim/LogGOPSim.cpp:312-724 | An executed item changes dependency counters of its own host and its peer's only, frees nothing before its own time except by its start, and queues nothing but a send's message. |
| Effects.RunTouches | sim/LogGOPSim/LogGOPSim.cpp:727-736 | Handling an item changes dependency counters of no host but the item's own and its peer's. |
| Limits.CompletedOnceIffAgreeing | sim/LogGOPSim/LogGOPSim.cpp:471-508 | When for the first time in a run a receive takes an unexpected message from the other side of S, the send ends up completed twice or never; on the same side exactly once, and only then. |
| Limits.TakenByOtherSize | sim/LogGOPSim/LogGOPSim.cpp:471-508 | A run of two hosts, for any two sizes: an eager message taken by a larger receive is completed twice, and in the mirrored case never, with nothing left to do. |
| TimeOrder.StepGoesBackIff | sim/LogGOPSim/Parser.hpp:672-688 | After an iteration an item is queued in the past if and only if the executed operation's start counted some node down to zero whose own clock, if it waits for one, was earlier and is not set by this operation. |
| TimeOrder.PoppedTimeDropsIff | sim/LogGOPSim/LogGOPSim.cpp:296-804 | In any run of any schedule the next popped time is smaller if and only if this iteration frees a node early. |
| Limits.RunGoesBack | sim/LogGOPSim/Parser.hpp:672-688 | A run of three nodes that pops times 0, the size of a calculation, and 0. |
| DependencyTracker.StartFreesAtZero | sim/LogGOPSim/Parser.hpp:672-688 | A start frees exactly the nodes whose counter passes zero, wrap-around included, and all at time 0. |
| DependencyTracker.DoneFreesLater | sim/LogGOPSim/Parser.hpp:697-726 | A completion frees nodes no earlier than its own time. |
| Termination.StepDecreases | sim/LogGOPSim/LogGOPSim.cpp:296-804 | Every iteration lowers the pair of remaining executions and summed distance of items from the largest clock. |
| Effects.BusyReinserts | sim/LogGOPSim/LogGOPSim.cpp:334-340 | An item whose resources are busy is put back at the time they are free, with all clocks and trackers as they were. |
| Completion.CompletesIffAcyclic | sim/LogGOPSim/LogGOPSim.cpp:296-788 | A run that reaches an empty queue has done everything if and only if the graph of start and end events, with its rendezvous edges, is acyclic; all receive and unexpected queues are then empty. |
| Completion.AcyclicCompletes | sim/LogGOPSim/LogGOPSim.cpp:296-788 | No deadlock: in an acyclic schedule an empty event queue means everything is done and nothing is left over. |
| TimeOrder.PoppedTimesMonotone | sim/LogGOPSim/LogGOPSim.cpp:302-303 | Popped times never decrease along any run of any schedule without start dependencies, whatever the sizes. |
| TimeOrder.UnexpectedNotLater | sim/LogGOPSim/LogGOPSim.cpp:463 | The assertion that an unexpected message arrived no later than its receive always holds in such runs, and the one taken has waited longest. |
| CriticalPath.CriticalPathBound | sim/LogGOPSim/LogGOPSim.cpp:314-788 | Every operation, rendezvous sends included, ends no earlier than the length of any path of dependencies, work and messages into it. |
| CriticalPath.ArcTime | sim/LogGOPSim/LogGOPSim.cpp:358-387 | Each arc of such a path takes at least its weight: calculation size, send overhead, or flight and handling of a message, into the receive and into the end of its rendezvous send. |
| ExactTimes.SendsStayApart | sim/LogGOPSim/LogGOPSim.cpp:343-368 | In every run of every schedule, of two sends of one NIC one starts after the other has kept it for g and its bandwidth cost, and the sending clock shows that time. |
| ExactTimes.StepStarts | sim/LogGOPSim/LogGOPSim.cpp:343-418 | No iteration lowers a sending clock, and only executing an operation records its start, at the time of its item. |
| ExactTimes.CalculationTakes | sim/LogGOPSim/LogGOPSim.cpp:314-336 | A calculation ends exactly its size and the noise after its start, and its CPU is busy until then. |
| ExactTimes.SendTakes | sim/LogGOPSim/LogGOPSim.cpp:343-401 | A send's message is queued for exactly o, noise, O per further byte, L and the bandwidth cost after its start; an eager send ends before L; both clocks are exact. |
| ExactTimes.ReceiveTakes | sim/LogGOPSim/LogGOPSim.cpp:442-508 | A receive that finds its message waiting ends g, o and O per further byte after its NIC's sending side is free, and a waiting send ends with it. |
| ExactTimes.MessageTakes | sim/LogGOPSim/LogGOPSim.cpp:550-665 | A message that finds its receive posted ends it g, o, noise and O per further byte later, and its own send with it if that waits. |
| ExactTimes.OccupyIs | sim/LogGOPSim/LogGOPSim.cpp:467-468 | A meeting keeps the receive's CPU until its end and the receiving side of its NIC until the message is in. |
| ExactTimes.RaiseIs | sim/LogGOPSim/LogGOPSim.cpp:490-500 | A waiting send's CPU and sending clock are raised to these times if they are behind, never lowered. |
| ExactTimes.BandwidthIs | sim/LogGOPSim/LogGOPSim.cpp:361-367 | The bandwidth cost is the whole part of the cost of all bytes but the first. |
| Timing.StepTimed | sim/LogGOPSim/LogGOPSim.cpp:296-788 | An iteration keeps all recorded start, arrival and end times consistent with the dependencies, unless it takes a message from the other side of S. |
| SerializedGraph.SerializedGraph.Traverse | sim/LogGOPSim/Parser.hpp:531-543 | The traversal ends, emits no node twice, lets every edge go forward, and emits all nodes exactly when the graph is acyclic. |
| SerializedGraph.SerializedGraph.MarkNodeAsStarted | sim/LogGOPSim/Parser.hpp:672-688 | Counts down, in place, one counter per start edge, and lists each node whose counter reaches zero. |
| SerializedGraph.SerializedGraph.MarkNodeAsDone | sim/LogGOPSim/Parser.hpp:697-726 | Counts down one counter per edge, keeps the largest time for nodes still waiting, and hands that time out with the node. |
| SerializedGraph.SerializedGraph.GetExecutableNodes | sim/LogGOPSim/Parser.hpp:652-670 | Returns the freed nodes and empties the list. |
| SerializedGraph.InitialExact | sim/LogGOPSim/Parser.hpp:447-461 | Right after construction counters are exact and each root is listed once. |
| DependencyTracker.MarkStartedExact | sim/LogGOPSim/Parser.hpp:672-688 | Counters stay equal to the number of unsatisfied in-edges, multi-edges and both kinds included, and every node freed is listed exactly once. |
| DependencyTracker.MarkDoneExact | sim/LogGOPSim/Parser.hpp:697-726 | The same for completion. |
| Schedule.OpenIffBlocked | sim/LogGOPSim/Parser.hpp:681-682 | A node has an unsatisfied in-edge exactly when some predecessor has not happened yet. |
| StartTimes.MarkDonePrompt | sim/LogGOPSim/Parser.hpp:697-726 | A completion keeps the time remembered for each waiting node, and that handed out with each freed one, equal to the latest end of the nodes it requires. |
| StartTimes.FreedAt | sim/LogGOPSim/Parser.hpp:716-724 | A freed node starts exactly at the latest end of the nodes it requires, all of which have ended. |
| StartTimes.LatestEndIs | sim/LogGOPSim/Parser.hpp:708-715 | That end is the maximum: no required node ends later, and one ends then. |
| IssueTimes.EntersAtIssueTime | sim/LogGOPSim/LogGOPSim.cpp:752-787 | Along every run an operation enters the event queue exactly at the later of that end and the clock its kind waits for. |
| IssueTimes.StartsAtZero | sim/LogGOPSim/LogGOPSim.cpp:251-292 | What is queued at the start enters at time 0. |
| ScheduleWriter.ScheduleFile.SerializeMmap | sim/LogGOPSim/Parser.hpp:302-421 | Adding a rank leaves every earlier rank's data and jump-table entry in place, stores its own, and the size computed beforehand is the number of bytes the file holds. |
| ScheduleWriter.PutRank | sim/LogGOPSim/Parser.hpp:369-406 | A rank's data are written contiguously and nothing before them changes. |
| ScheduleWriter.LastEnd | sim/LogGOPSim/Parser.hpp:364-365 | The jump table entry of the previous rank tells where the next one starts. |
| ScheduleReader.MappedGraph.constructor | sim/LogGOPSim/Parser.hpp:574-607 | Opening a rank of a written file finds its start, its node count, and exactly its roots. |
| ScheduleReader.MappedGraph.GetNodeByOffset | sim/LogGOPSim/Parser.hpp:463-517 | Exactly the offsets greater than the number of nodes are refused; any other is read, and any node of any rank comes back with its original fields, both target lists and its counter. |
| ScheduleReader.RawBehindLast | sim/LogGOPSim/Parser.hpp:469-476 | The offset just behind the last node is let through: the appendix is taken for a node, its first edge target for the counter. |
| ScheduleReader.MappedGraph.DecrementCounter | sim/LogGOPSim/Parser.hpp:702-706 | Counting down in the mapped file is counting down in the schedule, with 32-bit wrap-around, and changes four bytes only. |
| ScheduleReader.CounterKeepsOthers | sim/LogGOPSim/Parser.hpp:702-706 | The whole file is then the file of the same ranks with that one counter changed. |
| ScheduleReader.FieldsRead | sim/LogGOPSim/Parser.hpp:478-487 | What is read at the offsets of a 39-byte record is what was written. |
| ScheduleBuilder.Graph.AddNode | sim/LogGOPSim/Parser.hpp:107-120 | A new node has no in-edges; counters remain the in-degrees. |
| ScheduleBuilder.Graph.AddDependency | sim/LogGOPSim/Parser.hpp:122-132 | Counters remain the in-degrees and the edge count the size of the appendix. |
| ScheduleBuilder.Graph.AddStartDependency | sim/LogGOPSim/Parser.hpp:134-144 | The same for a start dependency. |
| ScheduleBuilder.Graph.FindRootNodes | sim/LogGOPSim/Parser.hpp:83-91 | Lists the nodes without dependencies in order of offset. |
| Bytes.DecodeEncode | sim/LogGOPSim/Parser.hpp:366-410 | A number that fits its field is read back as written. |
| Goal.EmitEdges | goal_gen/hpc/Schedgen/schedgen.cpp:184-201 | Of chained communications exactly each send requires the last receive (or gap) before it, if there is one. |
| Goal.EmitOps | goal_gen/hpc/Schedgen/schedgen.cpp:123-182 | The operations are the communications in order, with the current tag. |
| Goal.Goal.EndOp | goal_gen/hpc/Schedgen/schedgen.hpp:71-83 | The operations of a collective that nothing in it precedes, and those that nothing in it follows, in label order. |
| Goal.Goal.Requires | goal_gen/hpc/Schedgen/schedgen.cpp:184-201 | Adds the dependency and takes its ends out of the two sets. |
| RecursiveDoubling.CreateAllreduceRecdoubRank | goal_gen/hpc/Schedgen/schedgen.cpp:967-1041 | Emits the communications of the rank, pairing, doubling rounds and pairing back, each send requiring the last receive. |
| RecursiveDoubling.NewRankBijection | goal_gen/hpc/Schedgen/schedgen.cpp:984-1003 | The renumbering is a bijection between the ranks that take part and a power of two. |
| RecursiveDoubling.SendHasRecv | goal_gen/hpc/Schedgen/schedgen.cpp:967-1041 | For every communicator size, each send is received by its destination in the same round. |
| RecursiveDoubling.RecvHasSend | goal_gen/hpc/Schedgen/schedgen.cpp:967-1041 | Each receive is sent by its source in the same round. |
| RecursiveDoubling.OncePerPeer | goal_gen/hpc/Schedgen/schedgen.cpp:1005-1024 | A rank exchanges at most one message each way with another. |
| RecursiveDoubling.AllreduceCorrect | goal_gen/hpc/Schedgen/schedgen.cpp:967-1041 | In program order every rank ends with the contribution of every rank exactly once, powers of two or not. |
| RecursiveDoubling.RunExecutes | goal_gen/hpc/Schedgen/schedgen.cpp:967-1041 | Such an execution exists. |
| HalvingDoubling.CreateReduceScatterAllgatherRank | goal_gen/hpc/Schedgen/schedgen.cpp:1080-1123 | Emits the two phases of the rank with their gaps. |
| HalvingDoubling.StepsMatch | goal_gen/hpc/Schedgen/schedgen.cpp:1080-1123 | For a power of two the peer of a step exists and performs the same step: equal sizes, opposite directions. |
| HalvingDoubling.ProgramAt | goal_gen/hpc/Schedgen/schedgen.cpp:1080-1123 | A rank sends and receives once per step, to the peer and with the size of that step, and nowhere else. |
| HalvingDoubling.PeersExistIff | goal_gen/hpc/Schedgen/schedgen.cpp:1088-1089 | All peers are ranks of the communicator if and only if its size is a power of two. |
| HalvingDoubling.TotalSent | goal_gen/hpc/Schedgen/schedgen.cpp:1080-1123 | Every rank sends exactly 2 (d - d / n) bytes when n divides d. |
| HalvingDoubling.MirrorIff | goal_gen/hpc/Schedgen/schedgen.cpp:1080-1123 | The second phase mirrors the first in partner always, and in size if and only if d leaves remainder at most one. |
| HalvingDoubling.HeldIs | goal_gen/hpc/Schedgen/schedgen.cpp:1080-1123 | What a rank holds of a block after any number of steps: which blocks, and whose contributions. |
| HalvingDoubling.AllreduceCorrect | goal_gen/hpc/Schedgen/schedgen.cpp:1080-1123 | At the end every rank holds every block with every contribution exactly once. |
| HalvingDoubling.OwnedCount | goal_gen/hpc/Schedgen/schedgen.cpp:1080-1123 | The blocks a rank owns halve down to one and double back to all. |
| HalvingDoubling.SizeIsBlocks | goal_gen/hpc/Schedgen/schedgen.cpp:1080-1123 | Each message has the size of the blocks it carries. |
| BinomialTree.CreateBinomialTreeBcastRank | goal_gen/hpc/Schedgen/schedgen.cpp:271-293 | Emits the receive from the parent, the sends to the children and the dependencies. |
| BinomialTree.CreateBinomialTreeReduceRank | goal_gen/hpc/Schedgen/schedgen.cpp:435-457 | Emits the send to the parent, the receives from the children and the dependencies, the send first. |
| BinomialTree.SpanningTree | goal_gen/hpc/Schedgen/schedgen.cpp:23-38 | For every size and root each rank but the root has one parent, which is smaller and lists it exactly once. |
| BinomialTree.SendsMeetReceives | goal_gen/hpc/Schedgen/schedgen.cpp:271-293 | Two ranks exchange a message exactly when one is the other's parent, and the receive is there where the send is. |
| BinomialTree.OncePerPeer | goal_gen/hpc/Schedgen/schedgen.cpp:435-457 | No operation occurs twice. |
| BinomialTree.ReqsAre | goal_gen/hpc/Schedgen/schedgen.cpp:280-282 | The dependencies are exactly those between the operation with the parent and each of those with a child. |
| BinomialTree.RespectsOrder | goal_gen/hpc/Schedgen/schedgen.cpp:444-446 | In any order that keeps the dependencies a broadcast's receive comes before its sends, and a reduce's send after all its receives. |
| BinomialTree.RootCollectsAll | goal_gen/hpc/Schedgen/schedgen.cpp:435-457 | In any order that keeps the dependencies the root of a reduce gets every contribution exactly once. |
| BinomialTree.EveryoneGetsIt | goal_gen/hpc/Schedgen/schedgen.cpp:271-293 | In any such order every rank gets the root's data. |
| BinomialTree.OrderExists | goal_gen/hpc/Schedgen/schedgen.cpp:271-293 | Such orders exist. |
| TreeFlow.OnlyRootHasNoParent | goal_gen/hpc/Schedgen/schedgen.cpp:271-293 | In a broadcast every real rank but the root receives, exactly once, and the root never; in a reduction the same holds of sending. |
| TreeFlow.ChainToRoot | goal_gen/hpc/Schedgen/schedgen.cpp:23-38 | Matched sends and receives of real ranks chain the root to every rank. |
| TreeFlow.BroadcastArrives | goal_gen/hpc/Schedgen/schedgen.cpp:271-293 | In any order that keeps the dependencies, what every other rank receives is what the root had. |
| TreeFlow.ReductionArrives | goal_gen/hpc/Schedgen/schedgen.cpp:435-457 | In any such order the root ends with every rank's contribution exactly once. |
| TreeFlow.BroadcastExists | goal_gen/hpc/Schedgen/schedgen.cpp:271-293 | Every such order carries some broadcast. |
| TreeFlow.ReductionExists | goal_gen/hpc/Schedgen/schedgen.cpp:435-457 | Every order carries some reduction. |
| Dissemination.CreateDisseminationRank | goal_gen/hpc/Schedgen/schedgen.cpp:406-419 | Emits a send and a receive per doubling distance, each send requiring the receive before. |
| Dissemination.CreateLinearAlltoallRank | goal_gen/hpc/Schedgen/schedgen.cpp:896-904 | Emits a send and a receive per step without dependencies. |
| Dissemination.RoundsMeet | goal_gen/hpc/Schedgen/schedgen.cpp:406-419 | For every communicator size the send of each round is received by its destination in the same round, and the receive sent by its source. |
| Dissemination.RoundsDiffer | goal_gen/hpc/Schedgen/schedgen.cpp:406-419 | No two rounds share a destination or a source. |
| Dissemination.RoundsCount | goal_gen/hpc/Schedgen/schedgen.cpp:410-418 | There are as many rounds as doubling distances below the communicator size. |
| Dissemination.StepAt | goal_gen/hpc/Schedgen/schedgen.cpp:898-903 | Where the send and the receive of each all-to-all step stand. |
| Dissemination.AlltoallMeets | goal_gen/hpc/Schedgen/schedgen.cpp:898-903 | Sends meet receives step by step, and every other rank is sent to in exactly one step and received from in exactly one. |
| TraceReader.LocOp.NextOp | goal_gen/hpc/Schedgen/process_trace.cpp:298-337 | Emits the calculation, makes the next operations depend on it and it on the previous ones. |
| TraceReader.LocOp.FinishColl | goal_gen/hpc/Schedgen/process_trace.cpp:398-448 | Emits a collective's completion after all its last operations and its optional background share, and the calculation before its first. |
| TraceReader.TraceRank.Process | goal_gen/hpc/Schedgen/process_trace.cpp:684-1039 | Each call kind updates schedule, pending dependencies and requests as the conversion relation says. |
| TraceReader.TraceRank.Collect | goal_gen/hpc/Schedgen/process_trace.cpp:1316-1346 | A collective is emitted between cleared start and end sets, with the right generator, and completed. |
| TraceReader.TraceRank.Convert | goal_gen/hpc/Schedgen/process_trace.cpp:597-1664 | The loop over the calls yields the converted schedule. |
| TraceOrder.ConvertedAcyclic | goal_gen/hpc/Schedgen/process_trace.cpp:298-448 | For any sequence of calls the emitted dependency graph has no cycle. |
| TraceOrder.BodyTracks | goal_gen/hpc/Schedgen/schedgen.hpp:60-83 | Within a collective dependencies are acyclic and stay inside, and the start and end sets hold exactly its sources and sinks; it is empty exactly with one rank. |
| TraceProgram.ProgramOrder | goal_gen/hpc/Schedgen/process_trace.cpp:684-1039 | With at least two hosts every operation of an earlier call, except a collective's background share, comes before every operation of a later call, if there is no Finalize from the earlier on to the later. |
| TraceBoundary.OrderKeptIff | goal_gen/hpc/Schedgen/process_trace.cpp:1651-1664 | Between one call and the next that adds operations order is kept if and only if the first is no Finalize, after which the next calculation waits for nothing. |
| TraceWaits.WaitAwaits | goal_gen/hpc/Schedgen/process_trace.cpp:898-927 | A posted operation has ended before the wait on its request has, if nothing stored or took the request in between. |
| TraceWaits.LaterCallsAwait | goal_gen/hpc/Schedgen/process_trace.cpp:898-985 | And before any operation of a later call starts, up to the next Finalize. |
| TraceWaits.CollectiveAwaits | goal_gen/hpc/Schedgen/process_trace.cpp:398-448 | A collective's completion waits for the end of each of its operations; its background share starts with it, and its first operations wait for the end of the calculation before. |
| TraceWaits.OperationsAwaitCalculation | goal_gen/hpc/Schedgen/process_trace.cpp:298-337 | The operations of any other call wait for the end of the calculation before them. |
| TraceWaits.RequestTaken | goal_gen/hpc/Schedgen/process_trace.cpp:913-985 | A wait takes its request away and no other; waiting for an unknown request adds nothing. |
| TraceWaits.NextWaitsFor | goal_gen/hpc/Schedgen/process_trace.cpp:684-1039 | The calculation after a posted operation waits for its start only, after a blocking call for its end, and for nothing else. |
| TraceWaits.Requested | goal_gen/hpc/Schedgen/process_trace.cpp:755-877 | What a request stands for is the receive, send or completion its call posted. |
| TraceBodies.CallAdds | goal_gen/hpc/Schedgen/process_trace.cpp:684-1039 | Each call adds its operations with their sizes, peers and tags, and before them a calculation of the time since the last call. |
| TraceBodies.CollectAdds | goal_gen/hpc/Schedgen/process_trace.cpp:398-448 | A collective's completion, its background share of at most the given time, and a calculation of the rest. |
| TraceBodies.TreesHaveRoots | goal_gen/hpc/Schedgen/process_trace.cpp:1436-1542 | In a traced broadcast every rank but the root receives, once; in a traced reduction it sends once. |
| TraceBodies.DisseminationRounds | goal_gen/hpc/Schedgen/process_trace.cpp:1283-1485 | Barriers with one byte, allgathers and non-blocking allreduces with their size exchange at all doubling distances. |
| TraceBodies.AlltoallSteps | goal_gen/hpc/Schedgen/process_trace.cpp:1592-1594 | An all-to-all exchanges with every other rank. |
| TraceBodies.AllreduceRounds | goal_gen/hpc/Schedgen/process_trace.cpp:1335-1336 | An allreduce performs recursive doubling. |
| TraceProgram.CalculationFirst | goal_gen/hpc/Schedgen/process_trace.cpp:298-337 | Every operation of a call comes after the calculation before it. |
| TraceProgram.FinishInOrder | goal_gen/hpc/Schedgen/process_trace.cpp:398-448 | All of a collective lies between the calculation before it and its completion. |
| TraceProgram.OrderedIffTwoHosts | goal_gen/hpc/Schedgen/process_trace.cpp:398-448 | A collective's completion waits for the calculation before it if and only if there are at least two hosts. |
| Congestion.SimpleNetwork.Insert | sim/LogGOPSim/Network.hpp:393-443 | The message is listed once on each link of its route, and every cached index is the recomputed one; those it meets are charged at the old rate first. |
| Congestion.SimpleNetwork.Query | sim/LogGOPSim/Network.hpp:267-347 | A message still moving is only charged; one that has arrived is taken off its links, and exactly those that shared one are charged and recomputed. |
| Congestion.MaxLoadCovers | sim/LogGOPSim/Network.hpp:326-334 | The index is no smaller than the load of any link of the route. |
| Congestion.MaxLoadAttained | sim/LogGOPSim/Network.hpp:326-334 | And it is the load of one of them. |
| Congestion.ChargedIs | sim/LogGOPSim/Network.hpp:283-286 | What is transferred in a time is the whole part of the time divided by the index. |
| Congestion.SizeTimesIndex | sim/LogGOPSim/Network.hpp:283-288 | Undisturbed, a message arrives exactly when its size times its index has passed. |
| Congestion.NotBeforeAnnounced | sim/LogGOPSim/Network.hpp:341-347 | It does not arrive before the time a query announces. |
| Topology.FindRoute | sim/LogGOPSim/Network.hpp:168-199 | If the walk ends at all, it ends with the links of the route if and only if there is one, and otherwise aborts. |
| Topology.WalkEndsIff | sim/LogGOPSim/Network.hpp:181-198 | The walk reaches its destination if and only if it does so within as many turns as there are nodes. |
| Topology.RouteNoRepeat | sim/LogGOPSim/Network.hpp:181-198 | No link occurs twice on a route. |
| Topology.RouteFollowsTables | sim/LogGOPSim/Network.hpp:181-198 | Every link of a route leaves its node by the only port or by the one the table names, and leads to the next. |
| Noise.Search | sim/LogGOPSim/Noise.hpp:111-132 | Binary search and correction stay in bounds, end, and find the only interval that covers the time. |
| Noise.Accumulate | sim/LogGOPSim/Noise.hpp:101-165 | The noise is what remains of the event under way plus all events that start inside the window, if and only if the operation starts after the first event, or before it and that has no share in it, or together with it and the events tied with the first happen to add up to what is left; in each case the difference is given. The trace never wraps around. |
| Noise.Noise.GetNoise | sim/LogGOPSim/Noise.hpp:94-175 | The same for an operation of a rank, whose total alone is increased. |
| ShellMaximum.RecursionIsMaximum | simulation-scripts/model_checks/verify_models.py:449-489 | The busy-period recursion equals the largest of the shell bounds, for any number of shells. |
| ShellMaximum.MaximumIsLowerBound | simulation-scripts/model_checks/verify_models.py:315-343 | No schedule of a single server is done earlier. |
| ShellMaximum.MaximumAttained | simulation-scripts/model_checks/verify_models.py:328-333 | Serving the shells in order of release is done exactly then. |
| ShellMaximum.ServeBatches | simulation-scripts/model_checks/verify_models.py:327-343 | The simulated server ends at the maximum, and the shell that starts the last busy period is one with the largest bound. |
| ShellMaximum.Recur | simulation-scripts/model_checks/verify_models.py:466-470 | The loop computes the recursion. |
| ShellMaximum.RulesPickTheBindingShell | simulation-scripts/model_checks/verify_models.py:355-369 | If collisions, once begun, continue in all deeper shells, hand-over and shortcut pick the same shell, the first with the largest bound. |
| ShellMaximum.GrowingBatchesStayColliding | simulation-scripts/model_checks/verify_models.py:454-459 | That is so with batches that do not shrink below the deepest and a constant step. |
| ShellMaximum.ShortcutBindsIff | simulation-scripts/model_checks/verify_models.py:488-489 | On any shells the shortcut names a binding shell if and only if the blocks from it on keep the link busy until each deeper shell. |
| ShellMaximum.HandOverBindsIff | simulation-scripts/model_checks/verify_models.py:355-369 | The hand-over rule does if and only if the blocks from no shallower shell on outlast the release of its own. |
| ShellMaximum.BatchesOf | simulation-scripts/model_checks/verify_models.py:437-446 | Counts the peers of a rank by tier; together they are all but the rank. |
| ShellMaximum.StrandedBatches | simulation-scripts/model_checks/verify_models.py:500 | Member 16 of 20 sees batches of 3, 0 and 16. |
| ShellMaximum.StrandedMember | simulation-scripts/model_checks/verify_models.py:500-511 | For this member the shortcut is wrong exactly while three blocks take at least one tier's step but less than two, and the hand-over exactly when they take more than two. |
| ShellMaximum.IncAg | simulation-scripts/_gen_rsag_tables.py:98-102 | The closed form equals the busy-period recursion of the tiers. |
| ShellMaximum.TierThatBinds | simulation-scripts/_gen_rsag_tables.py:78 | On the fabric both rules find the tier that decides. |
| ShellMaximum.FillIsPath | simulation-scripts/_gen_rsag_tables.py:78 | The fill time is that of one frame handed on from switch to switch, up to the tier and down again. |
| Intervals.GetNonOverlappedCompute | scripts/get_non_overlapped_compute.py:1156-1174 | The total gap is latest end minus earliest start minus the length of the union, and the merged list covers the same points with intervals that do not touch. |
| Intervals.Merge | scripts/get_non_overlapped_compute.py:1159-1167 | Merging start-sorted intervals keeps the points and separates the intervals. |
| Intervals.GapsAreTheRest | scripts/get_non_overlapped_compute.py:1169-1172 | Between separated intervals the gaps are the span less the union. |
| JobMerging.RoundRobinMapping | goal_gen/merge_goals.py:66-81 | The scan ends and deals out 0 to the total exactly once, with the requested sizes, in rounds; it fails exactly without jobs or with a job of no ranks. |
| JobMerging.PackedMapping | goal_gen/merge_goals.py:47-56 | Consecutive ranges, which partition 0 to the total. |
| JobMerging.RankMappingToJobRanks | goal_gen/merge_goals.py:138-152 | The inverse of the mapping, or failure exactly if a rank is given out twice. |
| JobMerging.WriteRankSched | goal_gen/merge_goals.py:247-271 | Every line is copied with its peer's global rank; fails exactly if a peer does not exist. |
| JobMerging.GenerateMultiJobGoal | goal_gen/merge_goals.py:277-299 | Each job is copied to its global ranks and all others idle. |
| JobMerging.MatchesPreserved | goal_gen/merge_goals.py:277-299 | Two lines match in the merged schedule if and only if they belong to one job and match there: no message crosses jobs. |
| JobMerging.MatchesComeFromJobs | goal_gen/merge_goals.py:277-299 | Every matched pair of the merged schedule comes from a job. |

## Left out

- Noise in the event loop is any non-negative number, and G a non-negative real; floating-point rounding is not modelled.
- An event queue that is empty at the start: the loop reads its top, which the C++ library leaves undefined; `Simulator.Simulator.Run` does nothing then.
- The order in which hosts are asked for freed nodes is fixed in the model (item's host, then its peer); any other order permutes the event queue, whose order carries no meaning.
- `Simulator` holds the trackers as values; counting down in place is shown for one rank in `SerializedGraph` and on the bytes of the file in `ScheduleReader`.
- Exclusivity of CPUs and of the receiving side of NICs over a whole run, and a bound on the reported makespan: the unexpected-queue branch sets these clocks without taking a maximum, so they do not hold. The sending side is kept (`ExactTimes.SendsStayApart`).
- The list-based matcher, wildcard sources and tags, timeline output, match statistics, progress output, command-line parsing.
- Machine-word overflow: counters, sizes and offsets of the file format are required to fit their fields; elsewhere times and sizes are unbounded.
- Topology.FindRoute: states nothing for a walk that goes round in a circle for ever, because a method that returns cannot; `Topology.WalkEndsIff` says when a walk ends.
- ScheduleReader.Raw: reads behind the end of the file and the assertion on edge targets are one outcome, `Failed`; what the operating system does with either is not modelled.
- ScheduleWriter.ScheduleFile.SerializeMmap: starts from an empty file and takes ranks in ascending order; mapping and unmapping of memory are not modelled.
- The `_DSN` variants of the tracker operations, which do the same without start times, and the text of the DOT dump.
- Executions of the butterfly patterns are taken in program order, because the emitted dependencies only chain a send to the last receive; for the binomial trees the dependencies suffice.
- HalvingDoubling.HeldIs: which blocks a message carries is not in the source, which gives sizes only; the model sends the half the peer keeps, and `SizeIsBlocks` ties it to the sizes.
- Binary-tree broadcast, n-way dissemination, ring, chained and resilient patterns, and causal claims about dissemination.
- TraceReader.TraceRank.Process: parsing of trace lines, communicators and data types is not modelled, and source, destination and tag are given as final values; times are integers, and the scaling of elapsed time to the size of a calculation is an arbitrary function.
- Persistent requests, extrapolation to more hosts, start positions and limits on the number of operations in trace conversion.
- The network dispatcher and the bookkeeping of queries inside insert: the main loop calls neither; insert and query are separate steps, and the divisions of bytes by the index are exact integer divisions.
- Reading noise traces and drawing start offsets: traces are given sorted with at least two events.
- `census`, `ring`, `inc_rs` and the other table and plot helpers; frame and byte counts enter `ShellMaximum` as given times.
- Extraction of intervals from profiles: `Intervals` starts from the list of intervals, with integer times; the library sort is replaced by an insertion sort.
- Splitting of GOAL text into lines and words in job merging, random and custom mappings, multi-tenant mode and the rejection of collective records.
- HTSim, packet-level back ends, the NCCL generator and the text-to-binary front end are not part of this model.
