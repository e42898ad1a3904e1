# Potter: a verified model of the router's core

Potter is a negotiated-congestion router for FPGAs. Every connection of every net is ripped up
and routed again until no routing node is shared by two nets. This project models its core in
Dafny and proves what the program's users rely on, over all inputs and all reachable states:

- **Negotiation.** Per-net user counts, node occupancy and the cached present cost
  (`Ledger`, `Congestion`), what the end of the loop means (`Convergence`), who may use a sink
  (`Exclusive`), and the router object with its in-place operations (`Negotiation`), from the
  reservation of the sinks to the last iteration, with logs of its visits (`IterationLog`), the
  stamps they leave (`StampAccount`) and the factor update (`FactorUpdate`).
- **Search.** The best-first search against a scratch table that is never cleared (`Search`,
  `RoutingGraph`), the same search in atomic steps (`SearchMachine`, `SearchSteps`), how near to the
  least cost it comes (`LeastCost`, `Detour`), costs and assertions (`Cost`, `Site`, `Prices`, `Alarms`), what
  an answer means (`Answered`), and the stamps that make the table reusable (`Stamps`,
  `StampCollision`).
- **Partition tree.** Boxes (`Geometry`, `BoundingBox`), cutting (`Cutline`, `PartitionTree`,
  `CutLaws`), leaves (`PartitionLeaves`), levels (`Schedule`) and why the leaves of a level may
  share one scratch table (`LevelSafety`). The concurrent execution of a level is a machine that takes one
  small step at a time (`LevelMachine`, `LevelFootprint`, `LevelSchedule`, `LevelConfluence`,
  `LevelOutcome`, `LevelTermination`); `TreePass` puts plan and levels together.
- **Stability-first batches.** Deferred counts and their parallel commit (`SwiftSync`,
  `SyncBatch`, `CommitPhase`), when their assertion holds (`BatchCover`), pending occupancy changes
  (`OccChange`, `PendingChange`), what their searches charge (`BatchPrice`), whole batches and
  iterations as the program performs them (`StableFirst`, on `BatchNotes`, `BatchAnswers`,
  `BatchVisits`, `BatchIteration`), and what they achieve (`BatchOutcome`, `StableOutcome`). The
  routing threads are a machine of small steps as well (`BatchMachine`, `BatchSolo`, `BatchThread`,
  `BatchConfluence`, `BatchTermination`), and `BatchAnyOrder` runs threads and commits in any
  interleavings.
- **The whole parallel run.** The mode that the program is built to use: batches
  (`ParallelBatches`), tree passes (`ParallelPass`), iterations (`ParallelIteration`) and their
  sequence from the reserved sinks to the exit (`ParallelRun`), everything in any interleaving.
- **Graphs.** Node adjacency and PIPs (`Device`), dead-end pruning (`Pruning`), the searched graph
  made from both (`DeviceGraph`), repair of multi-driver nets (`NetRepair`), slicing of polygons
  (`Slicing`).
- **Threads.** Schedules in general (`Interleaving`), strided loops (`Strided`), the job pool
  (`RunJobs`). `Counting` holds facts about occurrences in sequences.

How the model is built:

- Pointers to nodes, nets and connections are indices. Costs and factors are reals; base costs
  in net repair are natural numbers. Integers are unbounded except where the width matters
  (`Cutline.Extent`, `Device.Ints2Long`, `NetRepair.UNREACHED`).
- An assertion of the program or an `exit` becomes an outcome (`Stopped`, `Uncovered`,
  `ok == false`), the assertions inside a search included (`Query.alarm`). For those on counts the
  exact conditions are `Alarms.CountAssertionExactly` and `SyncBatch.CoveredExactly`.
- A concurrent phase is modelled by all interleavings of its atomic steps. The methods of the
  batch mode perform one of them; `BatchAnyOrder.BatchAnyInterleaving` shows that the others end
  alike. `ParallelRun` takes them all: a batch by its schedules of threads and commits, a tree pass
  by a log of visits, which `ParallelPass.EveryPassRuns` gives for every interleaving.
- What one phase of the parallel run hands to the next is a `Desk`: books and paths, every thread's
  scratch table and numbers, and the nodes' batch stamps. `Spaced` says that the numbers of routed
  connections keep the stamps of different iterations apart.
- `Sound` and `Exact` books, `MayStop` (the graph has a source pin or super long line as a child, or
  some search has failed: the two causes of a stop), `Blocked` (a connection that needs routing and
  whose sink is not connected) are predicates of `Congestion`, `Alarms` and `BatchIteration`.
- Heaps yield a least element with ties broken by position (`Search.Top`, `SearchMachine.Pick`);
  in net repair, where keys change while nodes are queued, any queued element may come next.
- Hash maps and sets are visited in any order.

Results that differ from what one might expect of the program:

- **Failed searches.** A failed search loses the reservation of its sink, and the next rip-up
  takes it again. The counts are exact if and only if no search has failed
  (`Congestion.CountsExactIffNoFailure`); the law that holds in every run is
  `Congestion.CountLaw`. The end of the loop is nevertheless sound, because only the owner can
  use that sink (`Exclusive.DisjointDespiteFailures`). But the program may stop: a second failure
  brings the count to -1, and a sibling that meets the pin fails an assertion
  (`Alarms.LostPinStops`, exact condition `Alarms.CountAssertionExactly`). In batch mode the
  assertion about decrements holds if and only if the connections outside the batch make up for
  the loss (`SyncBatch.CoveredExactly`); whether a batch will get past it is decided at the barrier
  before it (`BatchCover.ShortExactly`, `BatchAnyOrder.GoesOnExactly`).
- **Uncounted failures.** Batch iterations do not count failed searches, so the loop may end with
  a connection unrouted (`StableOutcome.QuietFailure`). Its end is legal if and only if all routed
  flags are set (`StableOutcome.LegalIffRouted`, over whole runs
  `ParallelRun.ParallelNegotiation`), and, if the batches held all nets, if and only if no
  connection was blocked when its batch started (`StableOutcome.LegalIffNoneBlocked`).
- **Stamps.** `connectionIdBase` grows by the number of routed connections, not by the number of all.
  Used stamps stay apart, whichever connections are routed, if and only if the bases of any two
  iterations that route something are at least that number apart
  (`Stamps.UsedStampsApartExactly`). Otherwise a search can miss the only path
  (`StampCollision.CollidingSearches`); the search's contract is stated for every table.
- **Initial flags.** `isRouted` has no initialiser. A stray `true` is never repaired
  (`Convergence.StrayFlagIsNeverRouted`); the other results take it to be false at the start.
- **Prices in a batch.** A batch search charges by the counts of rerouting one by one, but by an
  occupancy that lags behind (`BatchPrice.BatchLag`): where its net uses the node it misses the
  changes of other threads' nets, and where its net has left the node it still pays for it.
- **Empty middle nodes** of the partition tree carry the invalid default box, whose width wraps to
  2 in 32 bits (`Cutline.EmptyExtent`).

## Model

| member | source | states |
|---|---|---|
| `Geometry.StrictIntersectIsCommonInterior` | src/utils/geo.h:162-166 | two boxes intersect strictly if and only if their interiors share a point |
| `Geometry.StrictIntersectMonotonic` | src/utils/geo.h:162-166 | enlarging two boxes keeps a strict intersection |
| `Slicing.SortBoxes` | src/utils/geo.h:375-378 | some permutation sorted by the comparison of MergeRects |
| `Slicing.MergeRects` | src/utils/geo.h:372-392 | the merged boxes cover exactly the same points, and have disjoint interiors if the input had, or if its boxes agree or are disjoint across the merge direction |
| `Slicing.JoinedCovers` | src/utils/geo.h:384-386 | joining two joinable boxes adds no point and loses none |
| `Slicing.PassedIsClear` | src/utils/geo.h:379-390 | in sorted, aligned input a box that cannot be joined meets none of the later ones, so one pass suffices |
| `Slicing.SliceLines` | src/utils/geo.h:404-412 | the slice lines are strictly ascending and hold every boundary |
| `Slicing.SliceBox` | src/utils/geo.h:414-425 | slices between neighbouring lines that together cover exactly the box |
| `Slicing.ElementaryAligned` | src/utils/geo.h:414-425 | slices between neighbouring lines agree or are disjoint in the sweep direction |
| `Slicing.SlicePolygons` | src/utils/geo.h:397-433 | for non-degenerate boxes the result covers exactly the same points, with pairwise disjoint interiors |
| `BoundingBox.NetCenter` | src/db/netlist.cpp:428-452 | the least integer not below the mean of the pin coordinates; it stays within the range of the pins |
| `BoundingBox.UpdateNetAndConnectionBBox` | src/db/netlist.cpp:414-476 | every net centre is, on each axis, the least integer not below the mean of source and sinks; a tile of the layout lies in a connection's box if and only if, on each axis, it lies between two of net centre, source and sink |
| `BoundingBox.WidenedHoldsPin` | src/route/aStarRoute.cpp:395-402 | a pin coordinate lies strictly inside the widened span if and only if it is on the device |
| `BoundingBox.SpansReach` | src/db/netlist.cpp:462-471 | for any coordinates, on the device or off it: on the layout the raw span is the range of net centre, source and sink, and the widened one its neighbourhood |
| `BoundingBox.RoutingBoxHoldsPins` | src/route/aStarRoute.cpp:393-409 | the routing box holds a pin strictly inside if and only if the pin lies in the layout; then it is strictly valid and inside the layout box |
| `BoundingBox.UpdateIndirectConnectionBBox` | src/route/aStarRoute.cpp:382-413 | every connection of every net gets its widened, clamped box |
| `BoundingBox.ComputeBoxes` | src/db/netlist.cpp:414-487 | a tile of the layout lies strictly inside a routing box if and only if, on each axis, it is less than the margin (3 and 15) outside the range of net centre, source and sink; all boxes hold their pins strictly inside if and only if all pins lie in the layout |
| `BoundingBox.SameNetBoxesMeet` | src/route/aStarRoute.cpp:393-409 | boxes of connections of one net always intersect strictly |
| `Cutline.EmptyExtent` | src/route/partitionTree.cpp:29-36 | the default box has extent 2 in 32-bit arithmetic, so no index leaves the tables |
| `Cutline.UsableExtent` | src/route/partitionTree.cpp:29-45 | a non-empty node is at least 2 wide, so index W-2 exists, and all table indices are in range |
| `Cutline.FillCounts` | src/route/partitionTree.cpp:33-61 | the tables hold, for every cutline, how many connections begin before it and how many end after it |
| `Cutline.CandidateIsBothSides` | src/route/partitionTree.cpp:66-74 | the test on the table entries holds if and only if the cutline leaves connections on both sides; the divisor of the score is then positive |
| `Cutline.ScoreRange` | src/route/partitionTree.cpp:74-74 | a balance score lies between 0 and 1 |
| `Cutline.ScanAxis` | src/route/partitionTree.cpp:66-96 | the scan returns the first candidate of least score if it beats the best so far, and keeps the best so far otherwise |
| `PartitionTree.FindCut` | src/route/partitionTree.cpp:62-97 | a best cut over both axes, or none if and only if no cutline leaves both sides non-empty |
| `CutLaws.LowScoreIsEven` | src/route/partitionTree.cpp:74-74 | of two divisions the one with the lower score has the greater ratio of its lesser to its greater side |
| `CutLaws.DividingIsCandidate` | src/route/partitionTree.cpp:66-72 | a line anywhere has connections on both sides if and only if it is one of the columns or rows that are tried |
| `CutLaws.BestIsMostEven` | src/route/partitionTree.cpp:62-97 | no line on either axis divides the connections more evenly than the chosen one; if none is chosen, no line divides them |
| `CutLaws.SidesExactly` | src/route/partitionTree.cpp:110-124 | a connection goes to the middle part if and only if its box has the line strictly inside, to the left if it ends at or before the line, to the right if it begins at or after it |
| `CutLaws.SidesApart` | src/route/partitionTree.cpp:110-151 | leaves below the two sides of a cutline never intersect strictly, so that they never conflict |
| `PartitionTree.CutShrinks` | src/route/partitionTree.cpp:98-151 | a chosen cut leaves both sides non-empty, every part smaller, and every part well formed in its box |
| `PartitionTree.Distribute` | src/route/partitionTree.cpp:110-124 | the connections of the two sides and of the line, in order, with the bounding box of the latter |
| `PartitionTree.PartitionTree.constructor` | src/route/partitionTree.cpp:9-18 | one root with the given connections and box |
| `PartitionTree.PartitionTree.OpenNode` | src/route/partitionTree.cpp:98-148 | three new children with their connections and boxes, linked to the node; no other node changes |
| `PartitionTree.PartitionTree.BuildTree` | src/route/partitionTree.cpp:25-153 | terminates and leaves a tree in which every inner node is cut at a best cutline, every leaf has none, and every box encloses its connections; nodes outside it are untouched |
| `PartitionLeaves.LeavesKeepOrder` | src/route/partitionTree.cpp:110-151 | every leaf holds its connections in root order and inside its box |
| `PartitionLeaves.LeavesPartition` | src/route/partitionTree.cpp:25-153 | each connection of the root lies in exactly one leaf |
| `PartitionLeaves.GetLeafNodes` | src/route/partitionTree.cpp:182-208 | the collected nodes are exactly the leaves, each once |
| `PartitionLeaves.UnionIsLeast` | src/route/aStarRoute.cpp:50-53 | the union of valid boxes is the least box around them all |
| `PartitionLeaves.RootOk` | src/route/aStarRoute.cpp:50-55 | the union of strictly valid connection boxes is a well-formed root |
| `Schedule.ConflictMap` | src/route/partitionTree.cpp:214-222 | entries are true exactly for different leaves whose boxes intersect strictly |
| `Schedule.SortBySize` | src/route/partitionTree.cpp:225-229 | all leaves once, those with most connections first |
| `Schedule.FirstFit` | src/route/partitionTree.cpp:234-248 | the first level without conflict, or a new one |
| `Schedule.ScheduleLeaves` | src/route/partitionTree.cpp:210-263 | every leaf is in exactly one level, no level holds a conflict, sizes fall within a level, and every leaf conflicts in each earlier level with a leaf that is no smaller |
| `Schedule.LevelIsBounded` | src/route/partitionTree.cpp:233-260 | a leaf of level l has at least l conflicts |
| `Schedule.LevelCount` | src/route/partitionTree.cpp:210-263 | at most one level more than the largest conflict degree |
| `LevelSafety.ApartIsIndependent` | src/route/aStarRoute.cpp:731-736 | leaves whose boxes do not intersect strictly hold connections of different nets, and no tile is strictly inside boxes of both |
| `LevelSafety.ConflictFreeIsSafe` | src/route/partitionTree.cpp:210-263 | in a conflict-free schedule any two leaves of one level are independent in this sense |
| `LevelSafety.PlanLevels` | src/route/aStarRoute.cpp:41-58 | from the pins to the schedule: boxes are the reach of their pins and net centres, the leaves are those of the tree of best cuts over all connections, every leaf lists connections without repetition inside its box, every connection is in exactly one leaf, big leaves are scheduled first, and leaves of one level are independent |
| `RoutingGraph.ChildList.constructor` | src/db/routeNode.h:15-31 | an empty child list |
| `RoutingGraph.ChildList.AddChildren` | src/db/routeNode.h:93-99 | appends one child to the list that both parts form |
| `RoutingGraph.ChildList.SetChildren` | src/db/routeNode.h:79-85 | the list becomes the given one |
| `RoutingGraph.ChildList.GetChildren` | src/db/routeNode.h:48-57 | both parts as one list, of which the inline part is the first eight elements |
| `RoutingGraph.JudgeExactly` | src/route/aStarRoute.cpp:534-565 | exactly which unvisited children are entered and which stop the program, by box, kind, target stamp, position of marked wires and the net's own count |
| `Search.ScanList` | src/route/aStarRoute.cpp:516-591 | keeps the search invariant and the order of the turns, and settles every child of the list; stops only at a child at which the program stops, failed assertions included; never changes the entry, hence the key, of a node already pushed |
| `Search.ScanNode` | src/route/aStarRoute.cpp:512-663 | the inline scan followed by the overflow scan settles every child, unless it meets the sink or a child at which the program stops |
| `Search.Top` | src/route/aStarRoute.cpp:502-502 | a queued node of least cost |
| `Search.LookAt` | src/route/aStarRoute.cpp:516-591 | one child: passed over, met as the sink, a stop, or entered with its parent, cost and estimate; the node whose turn it is pushes it |
| `Search.TakeTurn` | src/route/aStarRoute.cpp:499-663 | one turn takes a queued node of least cost and settles all its children, unless it meets the sink or a stop |
| `Search.PopKeepsOrder` | src/route/aStarRoute.cpp:502-510 | taking a queued node of least cost, once the children of all nodes taken before are settled, keeps the best-first order |
| `Search.PushKeepsOrder` | src/route/aStarRoute.cpp:483-489 | a push from the node whose turn it is keeps that order: later pushes change neither earlier turns nor their costs |
| `Search.PushKeepsInv` | src/route/aStarRoute.cpp:483-489 | pushing an enterable, unvisited child keeps the invariant; no node is pushed twice |
| `Search.SaveRouting` | src/route/aStarRoute.cpp:787-812 | following the links from the sink ends at the source; the stored path is simple, follows the links node by node, runs along child edges and its inner nodes are enterable |
| `Search.ClosedWalk` | src/route/aStarRoute.cpp:499-672 | when the queue is empty, no walk through enterable nodes reaches the sink |
| `Search.RouteOneConnection` | src/route/aStarRoute.cpp:463-709 | for every scratch table: terminates, pushes no node twice, changes no stamp but to its own; in every turn takes a node that costs no more than any node pushed before and not yet taken, and the node before the sink is the one taken last; ends by what is in reach through enterable nodes: a simple sink-to-source path only if the sink is, a stop only if a forbidden child or a failing assertion is, nothing if and only if neither is |
| `Search.FreshEntersAccessible` | src/route/aStarRoute.cpp:521-565 | with fresh stamps a node is enterable if and only if the accessibility tests admit it |
| `Search.FreshStops` | src/route/aStarRoute.cpp:538-565 | with fresh stamps only a source pin, a super long line or a failing assertion inside the box stops the program |
| `Search.StaleLosesWalks` | src/route/aStarRoute.cpp:518-524 | stale visit stamps can only remove walks |
| `Search.FreshConclusion` | src/route/aStarRoute.cpp:463-709 | with fresh stamps a search that is not stopped finds a path if and only if the sink is connected through accessible nodes, which graph and counts decide beforehand |
| `SearchMachine.NextKept` | src/route/aStarRoute.cpp:499-709 | every atomic step of a search keeps to the box, in what it writes and where it goes |
| `SearchMachine.NextSame` | src/route/aStarRoute.cpp:499-709 | a step is decided by what lies inside the box |
| `SearchMachine.FarChildSkipped` | src/route/aStarRoute.cpp:534-536 | a child outside the box is passed over, whatever its scratch entry holds |
| `SearchSteps.NextGood` | src/route/aStarRoute.cpp:499-709 | every atomic step keeps the invariant of the search and its best-first order, so a search that is interrupted at any step takes its nodes in that order and ends as the contract of RouteOneConnection says |
| `SearchSteps.GoodTakesBest` | src/route/aStarRoute.cpp:499-510 | at every step of every run, each node taken so far cost no more than any node that was pushed before that moment and not yet taken |
| `SearchSteps.NextProgresses` | src/route/aStarRoute.cpp:499-709 | every step of a search that has not ended brings its end nearer |
| `LeastCost.TakenInOrder` | src/route/aStarRoute.cpp:499-510 | with prices that are not negative and estimates that fall by no more than the price of a step, nodes are taken at rising cost |
| `LeastCost.FoundNearLeast` | src/route/aStarRoute.cpp:463-709 | under the same conditions the path found costs no more than any walk through enterable nodes and, for each of the walk's steps, the spread of the estimates |
| `LeastCost.FoundIsLeast` | src/route/aStarRoute.cpp:463-709 | if the estimates are all alike, the path found is one of least cost |
| `Detour.MissesCheapest` | src/route/aStarRoute.cpp:499-612 | a graph and steady prices for which every search with an unused stamp finds a path for 6 although another costs 2: a node keeps the parent that pushed it first |
| `StampCollision.CollidingSearches` | src/route/aStarRoute.cpp:481-524 | a run in which two iterations route one connection each: the second search gets the stamp of the first, meets its entries and finds nothing although its sink is in reach |
| `Cost.NodeCostNonNegative` | src/route/aStarRoute.cpp:751-779 | a node cost is not negative if the occupancy reckoned with leaves room for the net |
| `Prices.UseCharges` | src/route/aStarRoute.cpp:566-590 | what a search adds for a node, its estimate and its assertions, cleared of quotients: base and historical cost times congestion, distance from the net's centre and length, shared by all users of the net |
| `BatchPrice.PlainCharges` | src/route/aStarRoute.cpp:751-779 | where books are in step, congestion is one plus the factor for every other net at the node, and the sharers are the net's own other connections there |
| `Site.TalliedNoAlarm` | src/route/aStarRoute.cpp:751-779 | where occupancy, cost and counts are tallied neither assertion about count and node cost can fail |
| `Site.FoundPathRespectsPins` | src/route/aStarRoute.cpp:906-923 | a path found with an unused stamp enters a sink pin of another connection only if its net counts it already |
| `Answered.AnsweredRespectsPins` | src/route/aStarRoute.cpp:906-923 | an iteration whose searches had unused stamps respects pins throughout |
| `Answered.AnswerJoins` | src/route/aStarRoute.cpp:463-709 | whatever the table, a path that a search returns is a simple sink-to-source path of the graph inside the box |
| `Alarms.CountAssertionExactly` | src/route/aStarRoute.cpp:576-576 | the assertion on the count fails at a child if and only if the other connections of the net use it less often than failed searches have lost it |
| `Alarms.NoLossNoAlarm` | src/route/aStarRoute.cpp:751-779 | where no search has failed neither assertion can fail |
| `Alarms.ExactStops` | src/route/aStarRoute.cpp:538-590 | from exact books with a fresh stamp only a source pin or a super long line stops the program |
| `Alarms.StopCause` | src/route/aStarRoute.cpp:538-590 | whatever stops a search with an unused stamp, the graph has such a node or some search has failed before |
| `Alarms.LostPinStops` | src/route/aStarRoute.cpp:576-576 | a run that stops at the assertion, over two iterations with the factor update between them and any historical costs: two failed searches of one connection bring its sink to -1, and the search of a sibling enters it |
| `Stamps.UsedStampsApartExactly` | src/route/aStarRoute.cpp:72-72 | for every choice of routed connections of the given numbers no stamp is used twice, if and only if the bases of any two iterations that route something are at least n apart |
| `StampAccount.SpacedIsSpare` | src/route/aStarRoute.cpp:72-72 | a table that holds only stamps of connections routed before holds none of the coming iteration, if its base is far enough from theirs |
| `StampAccount.NextNumbers` | src/route/aStarRoute.cpp:72-73 | after the iteration it holds only stamps of connections routed so far |
| `Stamps.BatchStampsIncrease` | src/route/stableFirstRouting.cpp:23-23 | batch stamps are ordered like (iteration, batch), so they strictly increase over the whole run |
| `Ledger.IncAllCounts` | src/route/aStarRoute.cpp:814-822 | counting a path in changes every count by its occurrences |
| `Ledger.DecAllCounts` | src/route/aStarRoute.cpp:881-887 | ripping up changes every count by the occurrences in the released nodes |
| `Ledger.IncAllFollows` | src/db/connection.h:59-68 | occupancy follows membership in the count table, and the cost of every touched node its occupancy |
| `Ledger.DecAllFollows` | src/db/connection.h:69-76 | the same for removal, as long as no count drops below zero |
| `Congestion.RerouteKeepsCounts` | src/route/aStarRoute.cpp:874-899 | every rerouting, failed or not, keeps the law: count = uses by paths and reservations minus what failed searches lost |
| `Congestion.CountsExactIffNoFailure` | src/route/aStarRoute.cpp:878-887 | counts equal uses if and only if no search has failed |
| `Congestion.SimplePathLoad` | src/route/aStarRoute.cpp:814-822 | a connection with a simple path contributes one to each node on it |
| `Congestion.HeldIsCounted` | src/route/aStarRoute.cpp:874-887 | a rip-up never takes more than the net has counted, where nothing was lost |
| `Congestion.CachedCost` | src/db/routeNode.h:104-110 | in exact books the cached cost of every node is 1 + occupancy x factor |
| `Congestion.RerouteKeepsSound` | src/route/aStarRoute.cpp:874-899 | reroutings keep occupancy, cost and flags in step wherever no reservation was lost |
| `Congestion.RerouteKeepsExact` | src/route/aStarRoute.cpp:814-822 | a successful rerouting keeps the books exact |
| `Congestion.NewFactorKeepsSound` | src/route/aStarRoute.cpp:829-866 | the factor update, although it skips unoccupied nodes, keeps costs in step |
| `Congestion.RunKeepsSound` | src/route/aStarRoute.cpp:70-132 | every run, failures included, keeps the books sound |
| `Congestion.RunKeepsExact` | src/route/aStarRoute.cpp:70-132 | every run without failed search keeps counts, occupancies (the number of nets with a positive count) and cached costs exact |
| `Convergence.OveruseIsSharing` | src/route/aStarRoute.cpp:130-131 | with exact books and all paths present, no node is overused if and only if no node lies on paths of two nets |
| `Convergence.NeedsRouting` | src/route/aStarRoute.cpp:718-721 | true if and only if the connection is unrouted or a node of its path is overused |
| `Convergence.IterationRoutes` | src/route/aStarRoute.cpp:95-110 | after an iteration a visited connection has a path if and only if its search did not fail |
| `Convergence.StrayFlagIsNeverRouted` | src/db/connection.h:351-351 | a connection that starts out flagged as routed without a path is never routed |
| `Convergence.VisitedOrFailed` | src/route/aStarRoute.cpp:95-110 | a visited connection without a new failure has a path |
| `Convergence.IterationComplete` | src/route/aStarRoute.cpp:95-110 | an iteration over all connections without failure leaves every one with a path |
| `Convergence.Converged` | src/route/aStarRoute.cpp:130-131 | such an iteration from exact books leaves exact books, all paths, and no overuse if and only if the nets are disjoint |
| `Convergence.CheckRoute` | src/db/database.cpp:345-364 | reports nothing if and only if all paths are present and no node lies on paths of two nets |
| `Exclusive.RerouteKeepsOwned` | src/route/aStarRoute.cpp:906-923 | a rerouting whose path respects pins leaves every sink to its owner, even if the search fails |
| `Exclusive.RunKeepsOwned` | src/route/aStarRoute.cpp:906-923 | in every reachable state of every such run a sink has no user but its owner |
| `Exclusive.SinksNotOverused` | src/route/aStarRoute.cpp:419-433 | owned sinks are never overused |
| `Exclusive.DisjointDespiteFailures` | src/route/aStarRoute.cpp:130-131 | even after failed searches, no overuse means that no node lies on paths of two nets |
| `Exclusive.ReservedIsExact` | src/route/aStarRoute.cpp:419-433 | after the reservations the books are exact |
| `Exclusive.ReservedIsOwned` | src/route/aStarRoute.cpp:419-433 | with distinct sinks every reserved sink is its owner's |
| `Strided.OneThreadEach` | src/route/aStarRoute.cpp:843-843 | every index is reached by exactly one thread of a strided loop |
| `Strided.AllIndices` | src/route/aStarRoute.cpp:842-864 | the threads together meet every index |
| `Strided.NewIndex` | src/route/aStarRoute.cpp:842-864 | no index is met twice |
| `FactorUpdate.RefreshNode` | src/route/aStarRoute.cpp:844-854 | the historical cost grows by overuse times the historical factor, and not at all without overuse; the present cost and the report of overuse follow the occupancy |
| `FactorUpdate.RefreshStride` | src/route/aStarRoute.cpp:842-856 | one thread's share: exactly its nodes are refreshed, and the count grows by the overused ones among them |
| `FactorUpdate.HistoryFollowsOveruse` | src/route/aStarRoute.cpp:848-853 | with a positive factor a node's historical cost grows if and only if it is overused, and more where the overuse is greater |
| `FactorUpdate.FactorRanges` | src/route/aStarRoute.cpp:831-837 | in every iteration the multiplier of a congested design lies between 1.1 and 4.4 and its historical factor between 0 and 2 |
| `FactorUpdate.NextFactorGrows` | src/route/aStarRoute.cpp:839-840 | the new factor keeps to the limit and does not fall unless the limit forces it |
| `FactorUpdate.NextFactorIsLesser` | src/route/aStarRoute.cpp:839-840 | the new factor is the lesser of the multiplied factor and the limit |
| `FactorUpdate.FactorGrowth` | src/route/aStarRoute.cpp:839-840 | over k updates with one multiplier the factor is the geometric growth, cut off at the limit |
| `FactorUpdate.FactorsMove` | src/route/aStarRoute.cpp:831-837 | in a congested design the historical factor starts at 1 and rises, the multiplier starts at 2.75 and falls |
| `FactorUpdate.FactorsLinked` | src/route/aStarRoute.cpp:831-837 | the historical factor decides the multiplier: by the square of its ratio to what it leaves of 2 |
| `FactorUpdate.CountOverused` | src/route/aStarRoute.cpp:110-113 | the number of overused nodes |
| `IterationLog.LogSummary` | src/route/aStarRoute.cpp:95-110 | a log of visits, each beginning where the one before left off, is an iteration of the state machine; its counts are the numbers of reroutings and failures, and if no stamp of the iteration was in use its searches failed only where the sink was not connected |
| `IterationLog.LogJoins` | src/route/aStarRoute.cpp:95-110 | an iteration stores nothing but such paths |
| `Negotiation.Router.SearchFor` | src/route/aStarRoute.cpp:463-709 | the search on the present books: a simple path along child edges, a failure if and only if neither the sink nor a stop is in reach, or a stop; it leaves no stamp but its own |
| `Negotiation.Router.ReleaseNode` | src/db/connection.h:69-76 | one decrement in the books of the net and the node |
| `Negotiation.Router.OccupyNode` | src/db/connection.h:59-68 | one increment in the books of the net and the node |
| `Negotiation.Router.Ripup` | src/route/aStarRoute.cpp:874-899 | the rip-up of the state machine |
| `Negotiation.Router.CommitPath` | src/route/aStarRoute.cpp:814-822 | the commit of the state machine |
| `Negotiation.Router.UpdateSinkNodeUsage` | src/route/aStarRoute.cpp:419-433 | goes through if and only if no two connections share a sink; then exactly the sinks are reserved |
| `Negotiation.Router.DynamicCostFactorUpdating` | src/route/aStarRoute.cpp:829-866 | both factors by their formulas, new factor and costs as in the state machine; counts each overused node once, so zero means no overuse; the historical cost of every overused node grows by its overuse times the historical factor, the others keep theirs |
| `Negotiation.Router.RouteConnection` | src/route/aStarRoute.cpp:100-107 | rip-up, search and commit amount to one rerouting of the state machine, or to the rip-up alone if the search stops; the answer is one to the query that the ripped-up books pose |
| `Negotiation.Router.VisitConnection` | src/route/aStarRoute.cpp:97-108 | one entry of the iteration log; with an unused stamp and sound books a stop means a forbidden node in the graph or an earlier failed search |
| `Negotiation.Router.RouteIteration` | src/route/aStarRoute.cpp:95-110 | unless the program stops, performs an iteration of the state machine and counts reroutings and failures: the failure counts of all connections together grow by exactly the reported number; if stored paths joined the ends of their connections they still do; if the table held none of its stamps, every search meets an unused one; a stop then has one of the two causes |
| `Negotiation.Router.Negotiate` | src/route/aStarRoute.cpp:70-131 | one iteration with its factor update keeps books sound, sinks owned and paths joining their ends; it reports convergence if and only if no search failed in it and nothing is overused, and all paths are then present; states the factor, historical costs and factors that it leaves; if it stops, one of the two causes is present |
| `Negotiation.Router.RouteIndirectConnections` | src/route/aStarRoute.cpp:36-132 | from blank books: a sequence of iterations, none but the last clean, the last clean if and only if the loop converges, and as many as allowed if it does not; every stored path is a simple sink-to-source path of the graph inside its box; if the loop converges, and the numbers of routed connections keep the stamps apart or no search ever failed, all paths are present and no node lies on paths of two nets; if it stops with distinct sinks and such numbers, some search had failed or the graph has a forbidden node |
| `Interleaving.AsIfAlone` | src/route/aStarRoute.cpp:926-935 | tasks on separate parts of the memory go, in every schedule, through the same moves as if each ran alone |
| `Interleaving.SameEnd` | src/route/aStarRoute.cpp:926-935 | a task that two schedules bring to rest ends in the same place |
| `Interleaving.CompleteCounts` | src/route/stableFirstRouting.cpp:30-37 | every interleaving performs each action as often as the threads do |
| `LevelFootprint.StepLocal` | src/route/aStarRoute.cpp:937-954 | a step is decided by the connection's own net, paths and nearby nodes, and writes nothing else |
| `LevelSchedule.StepKeepsTask` | src/route/aStarRoute.cpp:937-954 | queue, links and path of a running search stay among the nodes near its connection |
| `LevelSchedule.OthersAgree` | src/route/aStarRoute.cpp:926-935 | a step of one leaf leaves everything of another leaf of the level as it was |
| `LevelSchedule.LevelIsSeparate` | src/route/aStarRoute.cpp:926-935 | the leaves of a level keep to separate parts of the shared memory |
| `LevelConfluence.LevelConfluent` | src/route/aStarRoute.cpp:926-954 | any two interleavings that bring a level to its end leave the same paths, counts, occupancies, costs and scratch entries |
| `LevelConfluence.SameAsInOrder` | src/route/aStarRoute.cpp:926-954 | they leave what the leaves leave when routed one after another |
| `LevelTermination.StepNearer` | src/route/aStarRoute.cpp:937-954 | every step of an unfinished leaf brings it nearer to its end |
| `LevelTermination.LevelEnds` | src/route/aStarRoute.cpp:926-935 | every schedule that names each leaf often enough brings the level to its end |
| `LevelTermination.HaltCause` | src/route/aStarRoute.cpp:937-954 | a leaf that has halted, in whatever schedule, did so after sequential visits of its own connections, for one of the two causes |
| `LevelOutcome.LevelIsIteration` | src/route/aStarRoute.cpp:926-954 | every interleaving that comes through amounts to one sequential iteration over the level's connections, each answered as a search answers that begins with the table the visit met |
| `TreePass.PlannedIsIndependent` | src/route/partitionTree.cpp:210-263 | the planned levels meet the hypothesis: leaves of one level share neither nets nor nodes |
| `TreePass.PlanVisitsOnce` | src/route/partitionTree.cpp:210-263 | a pass that follows the plan visits every connection exactly once |
| `TreePass.LevelKeepsNear` | src/route/aStarRoute.cpp:731-736 | stored paths keep to the boxes of their connections from level to level |
| `TreePass.PassIsIteration` | src/route/aStarRoute.cpp:926-935 | a whole pass, each level in any interleaving, amounts to one sequential iteration with answers of searches |
| `TreePass.PassIsAnswered` | src/route/aStarRoute.cpp:926-954 | with unused stamps its searches find a path exactly where the sink is connected |
| `TreePass.PassJoins` | src/route/aStarRoute.cpp:926-954 | a pass, in any interleaving, stores nothing but paths that join the ends of their connections |
| `TreePass.PassKeepsOwned` | src/route/aStarRoute.cpp:906-923 | a pass keeps books sound and every sink to its owner |
| `TreePass.PassConverges` | src/route/aStarRoute.cpp:130-131 | from sound books with owned sinks, earlier failures included: a pass over all connections without new failure leaves all paths, each joining the ends of its connection if the stored ones did, and without overuse the nets are disjoint |
| `TreePass.PlannedPassSucceeds` | src/route/aStarRoute.cpp:926-935 | every pass by a plan succeeds in this sense, whatever the interleavings of its levels |
| `TreePass.PlanPass` | src/route/aStarRoute.cpp:41-58 | from pins in the layout to boxes that are the reach of their pins, leaves of the tree of best cuts, and levels by which every pass succeeds |
| `SwiftSync.Net.IncrementUser` | src/db/connection.h:59-68 | one user more; says whether the node is new |
| `SwiftSync.Net.DecrementUser` | src/db/connection.h:69-76 | one user less; says whether the node is gone |
| `SwiftSync.Net.PreDecrementUser` | src/db/connection.h:78-85 | notes one decrement and touches nothing else; the assertion holds if and only if the count covers all noted ones |
| `SwiftSync.Net.PreIncrementUser` | src/db/connection.h:118-124 | notes one increment and touches nothing else |
| `SwiftSync.Net.UpdatePreIncrement` | src/db/connection.h:126-141 | counts grow by the noted amounts; the node actions account exactly for the change of membership, and mark each node changed |
| `SwiftSync.Net.UpdatePreDecrement` | src/db/connection.h:87-104 | the assertion holds if and only if the counts cover the decrements; then the same for removal |
| `SwiftSync.Net.Commit` | src/route/stableFirstRouting.cpp:119-127 | after increments and decrements every count is old + increments - decrements; no assertion fails if the notes were covered |
| `SwiftSync.DoAllEffect` | src/db/routeNode.h:123-131 | the effect of atomic node actions depends only on how often each occurs |
| `SyncBatch.RunCounts` | src/db/connection.h:78-145 | rerouting the batch's connections one by one changes counts by exactly the noted increments and decrements |
| `SyncBatch.CommitEffect` | src/route/stableFirstRouting.cpp:30-37 | in any order of the nets' actions, occupancy changes by [new > 0] - [old > 0] per net, and nodes without stamp keep theirs |
| `SyncBatch.MergePerforms` | src/route/stableFirstRouting.cpp:30-37 | every interleaving of the commit threads performs exactly the nets' actions |
| `SyncBatch.BatchRefinesRun` | src/route/stableFirstRouting.cpp:17-46 | deferred counts, commit in any order and refresh of stamped nodes only: the batch ends in the state of rerouting its connections one by one, whatever failures have done to the books of other nets |
| `SyncBatch.BatchAnySchedule` | src/route/stableFirstRouting.cpp:30-37 | the same for every interleaving of the commit threads, so the outcome does not depend on scheduling |
| `SyncBatch.RunFollows` | src/db/connection.h:59-76 | covered reroutings move every occupancy with the membership of their nets, whatever other nets have done there |
| `SyncBatch.RunKeepsCosts` | src/db/routeNode.h:104-110 | every rerouting, failed or not, keeps each cached cost the image of its occupancy |
| `SyncBatch.BatchKeepsStep` | src/route/stableFirstRouting.cpp:17-46 | a covered batch leaves positive counts for its nets, so the next batch meets what this one met |
| `SyncBatch.BarrierCost` | src/route/stableFirstRouting.cpp:129-137 | at a barrier, failures or not, the cached cost of a node of non-negative occupancy is 1 + occupancy x factor |
| `SyncBatch.NewFactorKeepsStep` | src/route/aStarRoute.cpp:839-857 | the factor update leads from barrier to barrier |
| `SyncBatch.CoveredExactly` | src/db/connection.h:84-84 | the assertion about decrements holds at a node if and only if, for every net that gives it up, the connections outside the batch use it at least as often as failed searches have lost it |
| `SyncBatch.NoLossCovers` | src/db/connection.h:84-84 | where no search has failed the assertion of preDecrementUser cannot fail, whatever is rerouted |
| `SyncBatch.ExactCovers` | src/db/connection.h:84-84 | from exact books no batch stops at that assertion |
| `BatchCover.ShortExactly` | src/db/connection.h:84-84 | a net is short at a node if and only if its connections that need routing hold the node and failed searches have lost it more often than its other connections use it: decided by the barrier, before the batch |
| `BatchCover.NoLossNotShort` | src/db/connection.h:84-84 | from exact books no net is short |
| `BatchCover.CoveredNotShort` | src/db/connection.h:84-84 | a net that has visited all its connections with covered decrements was not short |
| `BatchCover.OverdrawnIsShort` | src/db/connection.h:84-84 | a net that has noted more decrements than its count covers was short |
| `SyncBatch.FailureStopsNextBatch` | src/db/connection.h:84-84 | after a failed search every later batch stops in which the net gives up the sink and no connection of it outside the batch holds it |
| `CommitPhase.UpdateNetsWorker` | src/route/stableFirstRouting.cpp:119-127 | commits the given nets, with every action accounted for; no assertion fails |
| `CommitPhase.UpdatePresentCongCostWorker` | src/route/stableFirstRouting.cpp:129-137 | one thread refreshes exactly the stamped nodes of its stride |
| `CommitPhase.RefreshCosts` | src/route/stableFirstRouting.cpp:38-45 | the threads together refresh exactly the stamped nodes |
| `OccChange.ReadsAsCleared` | src/db/routeNode.h:216-242 | with stamps that never go back, the lazily reset entry reads like one zeroed before every batch |
| `PendingChange.UsedNodes` | src/route/stableFirstRouting.cpp:66-74 | the set of nodes on the given paths |
| `PendingChange.NoteNet` | src/route/stableFirstRouting.cpp:92-110 | each node's number changes by its new occurrences if it was unused before, and by -1 if it is used no more |
| `PendingChange.ShiftBound` | src/route/stableFirstRouting.cpp:92-110 | what is noted for a net is never below the occupancy change that its commit brings, where no search has failed before |
| `PendingChange.SyncCostAssertions` | src/route/aStarRoute.cpp:754-763 | the running count is not negative and the occupancy reckoned with leaves room for the net, where no search has failed and the thread's number is not below the change its finished nets will bring |
| `BatchAnswers.SyncNoAlarm` | src/route/aStarRoute.cpp:566-590 | so neither assertion of getNodeCost can fail inside a batch where no search has failed |
| `BatchAnswers.SyncStopCause` | src/route/aStarRoute.cpp:538-590 | a batch stops inside a search only in a graph with a forbidden node or after a failed search |
| `BatchAnswers.AnsweredPins` | src/route/aStarRoute.cpp:906-923 | a batch whose searches had unused stamps respects the pins of the last barrier |
| `BatchNotes.PendingBound` | src/route/stableFirstRouting.cpp:92-110 | the shifts a thread has noted are, where no search has failed, not below the occupancy change that the commit of its nets will bring |
| `BatchNotes.ShiftsBound` | src/route/stableFirstRouting.cpp:92-110 | the same for the number in the thread's table, which started the batch with an earlier stamp |
| `BatchNotes.BatchCommits` | src/route/stableFirstRouting.cpp:119-127 | the notes of the nets, once settled, are the commit of the batch, and every decrement is covered |
| `StableFirst.StableRouter.NoteRipup` | src/route/aStarRoute.cpp:888-894 | notes the release of what the connection held; stops if and only if some count does not cover it |
| `BatchPrice.NotesAreCounts` | src/route/aStarRoute.cpp:569-573 | count at the barrier, less noted decrements, plus noted increments: the count that rerouting one by one and ripping up the connection would leave |
| `BatchPrice.SyncReckons` | src/route/aStarRoute.cpp:566-590 | at every node a batch search charges by that count, and where the net uses the node by the occupancy of the barrier and the thread's number |
| `BatchPrice.ThenCharges` | src/route/aStarRoute.cpp:751-779 | rerouting one by one, the next search charges by the other nets that are at a node by then |
| `BatchPrice.BatchLag` | src/route/aStarRoute.cpp:751-768 | the batch search charges by the same count; its congestion differs by the factor for every net by which the thread's number misses the change among the other nets, and at a node that the net has left it still counts the net itself |
| `BatchPrice.NumbersAddUp` | src/route/stableFirstRouting.cpp:92-110 | a thread's number for a node is the sum of the shifts of the nets it has finished in this batch |
| `PendingChange.ShiftOvercounts` | src/route/stableFirstRouting.cpp:92-110 | the shift of a net is the change of its use of the node, except that where the net is new every further occurrence on its paths counts as well |
| `BatchSolo.SearchReckons` | src/route/aStarRoute.cpp:566-590 | the same for a search under way in a routing thread, in every interleaving of the threads |
| `StableFirst.StableRouter.SearchSync` | src/route/aStarRoute.cpp:566-590 | the query charges at every node by the counts of rerouting one by one; the answer is one to this query |
| `StableFirst.StableRouter.RouteSync` | src/route/aStarRoute.cpp:463-709 | changes only the connection and its net's notes; its answer is one to a query that charges at every node by the count that rerouting the tries one by one would have left; with an unused stamp it fails if and only if the counts of the last barrier leave the sink unconnected; stops only for an uncovered decrement or inside the search |
| `StableFirst.StableRouter.VisitSync` | src/route/stableFirstRouting.cpp:76-88 | reroutes the connection if and only if it needed routing when the batch began; a stop has its cause in the notes or in a search |
| `StableFirst.StableRouter.RouteNet` | src/route/stableFirstRouting.cpp:59-112 | visits all connections of a net, leaves its notes, and notes the thread's occupancy changes under the stamp of the batch; meets an uncovered decrement only if the net is short |
| `StableFirst.StableRouter.RouteWorker` | src/route/stableFirstRouting.cpp:59-112 | the same for all nets of a thread; at its end the thread's numbers are, where no search has failed, not below the change its nets will bring; an uncovered decrement means that one of its nets was short at the barrier, and only a forbidden node or an earlier failure stops it in a search |
| `StableFirst.StableRouter.RoutePhase` | src/route/stableFirstRouting.cpp:20-29 | the threads in turn: no count, occupancy or cost changes, the tries belong to the batch's nets and to connections that needed routing, every net holds its notes, no net was short, every thread's table and numbers are left as its share says, and with unused stamps every search was decided by the counts of the last barrier |
| `StableFirst.StableRouter.CommitBatch` | src/route/stableFirstRouting.cpp:30-45 | leads from the noted state to the state of rerouting one by one |
| `StableFirst.StableRouter.RouteBatch` | src/route/stableFirstRouting.cpp:17-46 | unless it stops inside a search, a batch goes on if and only if none of its nets is short at the barrier; it then amounts to rerouting, one by one, exactly the connections of its nets that needed it when it began, and leaves the threads' tables with no new stamps but theirs |
| `StableFirst.StableRouter.StableFirstParallelRouting` | src/route/stableFirstRouting.cpp:17-46 | all batches of an iteration: a run of reroutings, books sound and in step, paths that join their ends, tables of the same sizes with no new stamps but those of the rerouted connections, stamps and numbers below the next iteration's, and with spare stamps a connection is without path if and only if it was blocked at the start of its batch; on a stop, the barrier before it and the cause: a net that is short there, a forbidden node or an earlier failure |
| `BatchOutcome.BatchKeepsOwned` | src/route/aStarRoute.cpp:906-923 | a batch keeps every sink to its owner, although its searches saw only the counts of the last barrier |
| `BatchMachine.StepLocal` | src/route/stableFirstRouting.cpp:59-112 | a step of a routing thread is decided by its own tables, nets and connections and by what is frozen |
| `BatchMachine.OthersAgree` | src/route/stableFirstRouting.cpp:59-112 | and writes nothing of another thread |
| `BatchMachine.BatchIsSeparate` | src/route/stableFirstRouting.cpp:24-29 | the threads of a batch keep to separate parts of the memory, because no net is listed twice |
| `BatchMachine.MovedIsCounted` | src/route/stableFirstRouting.cpp:92-110 | moving a number at once is what the increments, or the one decrement, of the program do |
| `BatchThread.StepDoing` | src/route/stableFirstRouting.cpp:59-112 | every step of a thread keeps what the routing phase promises of its share |
| `BatchConfluence.BatchConfluent` | src/route/stableFirstRouting.cpp:24-29 | any two interleavings that bring a batch to its barrier leave the same paths, flags, notes, numbers and scratch entries |
| `BatchConfluence.SameAsInOrder` | src/route/stableFirstRouting.cpp:24-29 | they leave what the threads leave in turn |
| `BatchTermination.StepNearer` | src/route/stableFirstRouting.cpp:59-112 | every step of an unfinished thread brings it nearer to its end |
| `BatchTermination.BatchEnds` | src/route/stableFirstRouting.cpp:24-29 | every schedule that names each thread often enough reaches the barrier |
| `BatchTermination.HaltCause` | src/route/stableFirstRouting.cpp:59-112 | a thread that has halted, in whatever schedule, did so at an uncovered decrement, and then one of its nets was short at the barrier, or, with books and tables in order, for a forbidden node or the loss of an earlier failed search |
| `BatchAnyOrder.PhaseAnyOrder` | src/route/stableFirstRouting.cpp:20-29 | every interleaving that comes through leaves the noted state of its tries: each net its notes, none short, each thread its table and numbers, each search decided by the last barrier |
| `BatchAnyOrder.GoesOnExactly` | src/route/stableFirstRouting.cpp:24-29 | in whatever interleaving, unless a thread stops inside a search, the batch comes to its barrier if and only if none of its nets was short at the last one |
| `BatchAnyOrder.BatchAnyInterleaving` | src/route/stableFirstRouting.cpp:17-46 | a whole batch, threads in any interleaving and then commits in any interleaving, ends in the state of rerouting the same connections one by one, with tables, answers and books as RouteBatch leaves them |
| `BatchIteration.BlockedStays` | src/route/stableFirstRouting.cpp:76-88 | after an answered batch a connection of a visited net is without a path if and only if it needed routing and its sink was not connected by the counts of the barrier |
| `StableOutcome.QuietFailure` | src/route/stableFirstRouting.cpp:84-86 | for every number of nets, a graph whose only search fails: every batch with its net, answered as searches answer, leaves no overuse and no path |
| `StableOutcome.LegalIffRouted` | src/route/aStarRoute.cpp:130-131 | an iteration that ends without overuse is legal if and only if every routed flag is set |
| `StableOutcome.LegalIffNoneBlocked` | src/route/stableFirstRouting.cpp:17-46 | batches over all nets that end without overuse are legal if and only if no connection was blocked when its batch started |
| `StableOutcome.BarredStays` | src/route/aStarRoute.cpp:937-954 | after an answered pass a visited connection is without a path if and only if it needed routing at its visit and its sink was not connected by the counts it met |
| `StableOutcome.IterationOutcome` | src/route/stableFirstRouting.cpp:17-51 | the whole iteration, with the pass over the labelled nets after the batches: sinks stay owned and paths join their ends; a connection of the batches is without a path if and only if it was blocked at its batch, one of a labelled net if and only if its sink was not connected at its visit; without overuse legality is the routed flags |
| `ParallelBatches.BatchLeads` | src/route/stableFirstRouting.cpp:17-46 | one batch between two desks (books, tables, stamps), in any interleavings: rerouting one by one, with tables and node stamps as the next batch needs them |
| `ParallelBatches.BatchGoesOn` | src/route/stableFirstRouting.cpp:20-29 | at such a desk a batch that does not stop inside a search comes through if and only if none of its nets is short; without a failed search it always does |
| `ParallelBatches.BatchesLead` | src/route/stableFirstRouting.cpp:17-46 | the batches of an iteration, each from the desk the one before has left: at every barrier a run of reroutings of exactly the connections that needed it |
| `ParallelPass.EveryPassRuns` | src/route/aStarRoute.cpp:926-954 | every pass, whatever the interleavings of its levels, is told by a log of sequential visits |
| `ParallelPass.PassLeads` | src/route/aStarRoute.cpp:926-954 | a pass keeps books, costs and paths in order and leaves no stamps but those of the connections it searched for; sinks stay owned if its stamps were unused; all connections and no failure mean all paths |
| `ParallelPass.PassLeaves` | src/route/aStarRoute.cpp:926-954 | a pass over labelled nets leaves the counts of all other nets alone |
| `ParallelIteration.RoundLeads` | src/route/aStarRoute.cpp:70-93 | a whole iteration, batches and labelled pass or tree pass, from a desk in order to one in order |
| `ParallelIteration.RoundBarriers` | src/route/stableFirstRouting.cpp:17-46 | and so at every barrier between its batches |
| `ParallelRun.ReservedInStep` | src/route/aStarRoute.cpp:419-433 | reserving the sinks leaves costs in step and positive counts, as the first batch needs them |
| `ParallelRun.RunKeeps` | src/route/aStarRoute.cpp:70-132 | every sequence of batched iterations, tree passes and factor updates from the reserved sinks keeps books, costs, paths, tables and stamps in order, and sinks owned if the numbers of routed connections keep the stamps apart |
| `ParallelRun.RunIsSafe` | src/route/aStarRoute.cpp:70-132 | the same at every barrier and after every factor update, for any kind of iteration that leads from order to order |
| `ParallelRun.ParallelNegotiation` | src/route/aStarRoute.cpp:36-132 | the negotiation in parallel mode, in any interleavings: at every barrier of every iteration books sound, costs in step, paths joining their ends, exact books and cost 1 + occupancy x factor while no search has failed, sinks owned if the stamps were kept apart; at the exit without overuse, if they were or no search failed, legal if and only if every routed flag is set, and legal after a tree pass without failure |
| `RunJobs.StepKeeps` | src/utils/MTStat.cpp:19-31 | every step of every worker keeps each job number given out in one place exactly once |
| `RunJobs.EveryJobOnce` | src/utils/MTStat.cpp:16-39 | in every interleaving no job is handled twice, and when all workers have stopped none is missing |
| `RunJobs.StepProgresses` | src/utils/MTStat.cpp:19-31 | every step of a worker that has not stopped brings the end nearer |
| `RunJobs.RunJobsMT` | src/utils/MTStat.cpp:5-42 | ends, with one thread or several, when each of the jobs has been handled exactly once |
| `Pruning.MarkInGraph` | src/db/device.cpp:408-426 | marks exactly the ends of edges between allowed nodes |
| `Pruning.GetOutDegrees` | src/db/database.cpp:224-238 | the number of edges into usable nodes of the graph |
| `Pruning.SetParents` | src/db/database.cpp:242-254 | the parents of every usable node, as often as there are edges |
| `Pruning.FindDeadEnds` | src/db/database.cpp:258-269 | exactly the nodes of the graph without a way on that are no pins |
| `Pruning.RemoveNode` | src/db/database.cpp:274-281 | degrees stay the number of edges into usable nodes of the graph, and the pending list stays exactly the dead ends |
| `Pruning.RemoveRound` | src/db/database.cpp:271-283 | the same for a whole round, which removes every listed node |
| `Pruning.RemovalKeeps` | src/db/database.cpp:274-281 | a removed node lies in no set in which every node but the pins has a usable child |
| `Pruning.ReduceRouteNode` | src/db/database.cpp:209-284 | terminates; every remaining node but the pins has a usable child, and every set with this property remains, so the result is the greatest one |
| `Pruning.RemainderIsSupported` | src/db/database.cpp:209-284 | the remaining nodes themselves have that property |
| `Pruning.RemainderStays` | src/db/database.cpp:209-284 | what the removal leaves, with the pins, is what stays in this sense, told without the procedure |
| `Pruning.CutHasNoDeadEnds` | src/db/database.cpp:286-329 | in such child lists a node is listed if and only if the device offers the way and both ends stay, and only pins are dead ends |
| `Pruning.MarkPins` | src/db/database.cpp:210-222 | marks exactly the sources and sinks of connections |
| `Pruning.SetRouteNodeChildren` | src/db/database.cpp:286-329 | a child list holds a node exactly as often as the device does, in the device's order, if the node is usable and both ends stay: pins, and nodes of a set where each is a pin or has a way on in the set; otherwise not at all; every listed child is a pin or has children; between any two pins exactly the walks of the device through usable nodes survive |
| `Pruning.PruningKeepsRoutes` | src/db/database.cpp:209-329 | the same as a property of marking, pruning and child lists |
| `NetRepair.NoLoop` | src/route/aStarRoute.cpp:340-346 | a node that can be improved through u is not among u's predecessors, even at zero cost |
| `NetRepair.ChainNoRepeat` | src/route/aStarRoute.cpp:340-346 | predecessor links never form a loop |
| `NetRepair.RelaxKeeps` | src/route/aStarRoute.cpp:340-346 | an update keeps every reached node hanging on the source by its links |
| `NetRepair.Relax` | src/route/aStarRoute.cpp:313-348 | terminates whatever order the heap yields, with every edge used up |
| `NetRepair.DistIsCheapest` | src/route/aStarRoute.cpp:313-348 | a node is reached if and only if some walk costs less than the mark INT32_MAX (in hundredths like all costs), and its recorded cost is then the least |
| `NetRepair.FollowLinks` | src/route/aStarRoute.cpp:354-364 | marks exactly the chain of the sink; stops if and only if the sink was not reached |
| `NetRepair.Rebuild` | src/route/aStarRoute.cpp:365-373 | every marked node becomes a branch of its predecessor, and of nothing else |
| `NetRepair.FixNetRoutes` | src/route/aStarRoute.cpp:303-374 | stops if and only if some sink is not of type PINFEED_I or has no walk below the mark; otherwise a tree rooted at the source: old edges, one driver per node, every node and sink on a cheapest walk, only sinks as leaves |
| `Device.KeyIsUnique` | src/utils/utils.cpp:5-9 | the key of a pair of 32-bit numbers determines the pair |
| `Device.TileTypes.AddTileTypePip` | src/db/device.cpp:40-59 | stops if and only if the pair is known; otherwise both adjacency tables, the PIP list and the index stay consistent |
| `Device.GetOutgoingNodes` | src/db/device.cpp:9-21 | the nodes of all wires to which a PIP leads, in order; wires of null tiles are passed over |
| `Device.GetIncomingNodes` | src/db/device.cpp:23-38 | the nodes of all wires from which a PIP leads, in order; a null tile contributes nothing |
| `Device.AdjacencyTransposed` | src/db/device.cpp:9-38 | when each tile wire belongs to one node, incoming adjacency is the transpose of outgoing adjacency with equal multiplicities |
| `Device.EdgeIsPip` | src/db/device.cpp:9-21 | there is an edge if and only if a PIP leads from a wire of one node to a wire of the other |
| `Device.GetTileTypePIP` | src/db/device.cpp:832-890 | succeeds if and only if there is an edge, and returns a PIP that joins a wire of each node in a shared tile with the right direction |
| `DeviceGraph.CutIsValid` | src/db/device.cpp:9-38 | the adjacency of every device meets what the pruning relies on |
| `DeviceGraph.BuildGraph` | src/db/database.cpp:286-329 | the graph is well formed; between any two nodes it has as many edges as the device has PIPs if the second is allowed and both survive the pruning, and else none; no listed child but a pin is a dead end; between pins it has exactly the walks which PIPs of the device offer through allowed nodes |
| `DeviceGraph.RoutableInDevice` | src/db/database.cpp:209-329 | a connection is routable in the pruned graph if and only if the device offers it a route through accessible nodes |

## Left out

- Runtime-first mode (`src/route/runtimeFirstRouting.cpp`): its unsynchronised cost updates keep none of the invariants proved here.
- K-means clustering, GIoU distances and angle sorting of the batch mode: they only decide which net goes to which batch and thread; the batches are arbitrary here.
- `routeDirectConnections` and the two `project_*` searches: they overwrite predecessor entries without a visited check.
- `saveAllRoutingSolutions` up to its call of `fixNetRoutes`, device and netlist parsing, serialisation and writers: input and output.
- Timers, logging, memory checks, share and congestion ratios, and the choice between the modes of an iteration: they do not touch the routing state.
- Watchdog limits: the loops they guard are proved to terminate, without a bound on the number of steps.
- Rounding of costs: floats and doubles are reals, and `doubleHpwl` is not truncated to 16 bits. The exponential of the factor update is any positive function.
- Tie-breaking of `std::sort` and `std::priority_queue`: some order that fits the comparison.
- Net-level bounding boxes, which only the clustering reads.
- `calculateNodeLevel` and `dfsPrint` of the partition tree: they only report.
- The `visited` set of `fixNetRoutes`: it holds all nodes of the net from the start.
- Search.RouteOneConnection: claims the best-first order and reachability, but least cost only if the estimates are all alike (`LeastCost.FoundIsLeast`) and a bound otherwise, because a node is closed when it is first pushed (`Detour.MissesCheapest`); when both the sink and a stop are in reach, the costs decide which is met first.
- StableFirst.StableRouter.RoutePhase: the threads take turns and their tables are handed over as values; that other interleavings end alike is `BatchAnyOrder.PhaseAnyOrder`.
- SyncBatch.FailureStopsNextBatch: speaks of batches in which the net gives up the sink, because the program asserts nothing about nodes that are not given up.
- SyncBatch.BarrierCost: needs a non-negative occupancy, because failed searches of labelled nets can take an occupancy below the number of using nets.
- BatchMachine.BatchIsSeparate: a step of a thread bundles what it does on its own data up to the next step of a search, which no other thread can observe.
