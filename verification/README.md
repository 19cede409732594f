# gem5 in Dafny

A model of the algorithms behind gem5's Python layer and of the part of Ruby and
Garnet that turns a mesh topology into routes, with proofs of what they promise.
`dafny verify dfyconfig.toml` checks everything. Nothing here runs gem5.

## What is modelled

**Meshes and deadlock freedom.** `Mesh`, `MeshBuild`: the builders of Mesh_XY and
Mesh_westfirst, loop by loop. `ShortestPaths`, `Topology`: the C++ code that fills a
weight matrix, relaxes it in place and derives each router's table. `RoutingUnit`: the
table lookup and the direction-based XY algorithm. `LinkFacts`, `MeshDistance`,
`MeshRouting`: what those tables say in a mesh of any size, in closed form.
`MeshDeadlock`, `MeshNetwork`: both meshes as networks of virtual channels whose routes
climb a rank, for every choice among links of equal weight. No route rule is assumed: it
is derived from the tables the code computes. `Fabric`, `Worms`, `WormWork`, `Allocator`:
wormhole switching flit by flit over any ranked network, with finite buffers, credits,
the ordering checks of ordered virtual networks and a clock. `OrderedSafe`: when no
reachable state is deadlocked. `Jam`, `Journeys`, `Cross`, `CrossArms`: how an ordered
network deadlocks when packets are longer than buffers. `MeshCross`, `MeshFlits`: so for
which settings a mesh can deadlock, as an if-and-only-if.

**Port binding.** `PortOrder`, `BindPorts`, `BindOrder`, `ConfigManager`: the one-pass
greedy binder, when it succeeds (an exact condition), and what it then has bound.

**Pipeline viewer.** `PipeQueue`: the reorder queue. `Timeline`, `CellDrawing`,
`TimelineText`: where every event of an instruction is drawn.

**Checkpoints.** `CptUpgrader`: rounds of upgrades as a least fixed point. `Aggregator`,
`MergedConfig`: several checkpoints merged into one memory and one configuration.

**Run control.** `RunClock`, `RunControl`, `CpuSwitching`: periodic checkpoints and
repeated processor switching, against a guest that may stop the simulator at any time and
drains that may take any time.

**Smaller tools.** `CacheTree`: the memory tester's tree. `InstTrace`, `TraceFile`:
dependency traces as text. `YearText`, `CopyrightYears`: year lists. `LatencyRanges`,
`LatencyPlot`: the latency sweep and its plot. `Varint`: message framing. Shared helpers
are in `Basics`, `Grid`, `Bits`, `Numerals`, `Fields`, `LineFile`, `Words`, `Text`,
`Sorting`, `Results`.

Automatic induction is switched off on every lemma, so each proof is the one written.

## Where the code and its words differ

- The comment at gem5/configs/topologies/Mesh_XY.py:41 says every weight is 1; the code uses 1 and 2, and so does the model.
- The XY and west-first claims of deadlock freedom hold for every mesh whose routes exist; routes exist only up to weighted distance 10000 (`MeshRouting.RouteFoundIff`, `MeshNetwork.LongRowIsNotRouted`).
- The comment at gem5/configs/example/read_config.py:301-310 says one of each pair can always be bound; `ConfigManager.OrderableButRefused` is a list that has an order but is refused, and `BindOrder.CompleteIffNoneBlocked` says exactly when the pass succeeds.
- In `scriptCheckpoints` the exit cause is not read again after the inner loop, so a checkpoint request of the guest ends the schedule after the period it falls in. `RunControl.CompleteIff` has the exact condition, `RunControl.ScheduleCutShort` an instance.
- `scriptCheckpoints` counts time by its schedule, but every checkpoint is preceded by a drain that takes simulated time, so checkpoints come later than scheduled (`RunControl.OnScheduleExactly`) and the run can pass maxtick (`RunControl.PassesEndIff`).
- `simulate` is wrapped with an unsigned parameter (gem5/src/python/swig/event.i:107), so the negative distances that both run-control loops can pass are refused with an exception. `RunControl.RaisesIff` and `CpuSwitching.OverrunIff` say exactly when that happens.
- Both mesh scripts promise freedom from deadlock (gem5/configs/topologies/Mesh_XY.py:38-39, gem5/configs/topologies/Mesh_westfirst.py:38-39). It holds for unordered virtual networks. In ordered ones the allocator's check (gem5/src/mem/ruby/network/garnet2.0/SwitchAllocator.cc:316-335) also holds back the body of a packet whose head is gone, a way of waiting that routes do not order. `MeshCross.DeadlocksIff` has the exact condition: an ordered network can deadlock exactly if it has two virtual channels or more and packets longer than a buffer. With the defaults of gem5/src/mem/ruby/network/garnet2.0/GarnetNetwork.py:41-44, four channels and flits of 16 bytes, that is a message of more than 64 bytes in a data network with four buffers per channel, and of more than 16 in a control network with one (`MeshFlits.MessagesDeadlockIff`); a data message is a block and a control message (gem5/src/mem/ruby/network/Network.cc:105), 72 bytes by default.
- The early stop of the pipeline viewer calls `print_insts` with one argument too few (gem5/util/o3-pipeview.py:134), so it ends with an error and the queued instructions are lost (`PipeQueue.Viewer.ProcessTrace`).
- The recorded range size of merged checkpoints is the size of the memory file only if every checkpoint holds its declared pages (`Aggregator.RangeSizeIff`).
- `DecodeVarint` advances its shift only after the last byte, so it returns what was encoded only below 128 (`Varint.DecodeOfEncode`, `Varint.StreamRoundTrip`).
- A printed dependency record whose request fields do not match its type is not read back (`InstTrace.RecordRoundTrip`), and neither is a printed range of years without four digits at both ends (`CopyrightYears.DatesRoundTrip`).

## Model

| member | source | states |
|---|---|---|
| Mesh.EmitRow | gem5/configs/topologies/Mesh_XY.py:131-145 | one inner loop emits the row's links less those removed, and advances the link counter once per position whether or not a link was removed |
| Mesh.EmitBlock | gem5/configs/topologies/Mesh_XY.py:130-145 | one pair of nested loops emits the block of one direction less the removed links, and advances the counter by the block's full size |
| Mesh.KeptExactly | gem5/configs/topologies/Mesh_XY.py:133-135 | a link survives removal exactly if its id less 32 is not named |
| Mesh.NothingRemoved | gem5/configs/topologies/Mesh_XY.py:56 | with an empty removal list nothing is dropped |
| Mesh.FullLinksCount | gem5/configs/topologies/Mesh_XY.py:129-199 | the four loops emit 2(R(C-1) + C(R-1)) links, for every R and C |
| Mesh.FullLinksNumbered | gem5/configs/topologies/Mesh_XY.py:129-199 | link ids are unique and contiguous, starting after the external links |
| Mesh.FullLinksAreSteps | gem5/configs/topologies/Mesh_XY.py:129-199 | every emitted link leads from a router to its neighbour in its direction, with that direction's weight and port names |
| Mesh.FullLinksComplete | gem5/configs/topologies/Mesh_XY.py:129-199 | every directed pair of neighbours has its link, under a known id |
| Mesh.FullLinksUnique | gem5/configs/topologies/Mesh_XY.py:129-199 | no directed pair of neighbours is linked twice |
| Mesh.FullLinksAreNeighbours | gem5/configs/topologies/Mesh_westfirst.py:116-167 | both schemes emit exactly the neighbour links, as one statement used by the routing theory |
| MeshBuild.SplitNodes | gem5/configs/topologies/Mesh_XY.py:96-102 | all but the last `remainder` controllers, and those |
| MeshBuild.ConnectControllers | gem5/configs/topologies/Mesh_XY.py:104-124 | refuses exactly if a left-over controller is not a DMA controller; otherwise controller i goes to router i mod n and left-over ones to router 0 |
| MeshBuild.LevelBound | gem5/configs/topologies/Mesh_XY.py:107-108 | the assertion that the level of a controller is below the number of levels never fails |
| MeshBuild.ControllerDistribution | gem5/configs/topologies/Mesh_XY.py:71-122 | every router gets len/n controllers, router 0 also the remainder |
| MeshBuild.EmitAll | gem5/configs/topologies/Mesh_XY.py:126-202 | the links of all four directions, in order, less the removed ones |
| MeshBuild.MakeMeshXY | gem5/configs/topologies/Mesh_XY.py:53-202 | refuses exactly on a bad row count, a non-dividing one or a non-DMA remainder, in that order; otherwise builds the mesh, with latency 3 on routers 12 to 15 |
| MeshBuild.MakeMeshWestFirst | gem5/configs/topologies/Mesh_westfirst.py:55-170 | the same for west-first weights, with one latency for all routers and no removal |
| MeshBuild.NothingRemovedIsFull | gem5/configs/topologies/Mesh_XY.py:55-56 | with nothing removed the built mesh has exactly the full list of neighbour links |
| ShortestPaths.BestIntermediate | gem5/src/mem/ruby/network/Topology.cc:228-241 | the inner loop finds the least cost over one intermediate switch, and reports an intermediate exactly if it is cheaper than the cell |
| ShortestPaths.RelaxCell | gem5/src/mem/ruby/network/Topology.cc:227-250 | a cell is lowered to the least two-leg cost, every entry stays the cost of some walk, and the sum of the matrix falls whenever a change is reported |
| ShortestPaths.RelaxAll | gem5/src/mem/ruby/network/Topology.cc:225-251 | a pass that reports no change leaves a matrix closed under the triangle inequality |
| ShortestPaths.ExtendShortestPath | gem5/src/mem/ruby/network/Topology.cc:217-253 | relaxation in place ends, and then every entry is the least cost over all walks in the original matrix |
| ShortestPaths.ShortestPath | gem5/src/mem/ruby/network/Topology.cc:255-262 | the result is the matrix of least walk costs; the weights are not changed |
| ShortestPaths.ClosedIsCheapest | gem5/src/mem/ruby/network/Topology.cc:217-253 | a matrix of walk costs that is closed under the triangle inequality holds the least costs |
| ShortestPaths.PotentialBoundsWalks | gem5/src/mem/ruby/network/Topology.cc:217-253 | a height function that no link lowers by more than its weight bounds every walk from below |
| ShortestPaths.CheapestIsClosed | gem5/src/mem/ruby/network/Topology.cc:264-270 | least costs satisfy the triangle inequality |
| Topology.Topology.constructor | gem5/src/mem/ruby/network/Topology.cc:49-103 | the link map holds both directions of every external link and every internal link, a later link replacing an earlier one between the same switches |
| Topology.Topology.AddLink | gem5/src/mem/ruby/network/Topology.cc:158-175 | sets one entry of the link map and no other |
| Topology.Topology.NumSwitches | gem5/src/mem/ruby/network/Topology.cc:108-118 | one more than the largest switch id in the link map |
| Topology.Topology.FillWeights | gem5/src/mem/ruby/network/Topology.cc:117-140 | large everywhere, zero on the diagonal, the link's weight where there is one |
| Topology.Topology.ShortestPathToNode | gem5/src/mem/ruby/network/Topology.cc:272-307 | the destination set of a link holds exactly the controllers to which it starts a cheapest path |
| Topology.Topology.MakeLinks | gem5/src/mem/ruby/network/Topology.cc:146-155 | the ports of a switch in link order, each with its weight, direction and destination set |
| Topology.Topology.CreateLinks | gem5/src/mem/ruby/network/Topology.cc:105-156 | the tables of all switches, over the matrix of least costs of the link map's weights |
| RoutingUnit.LeastWeight | gem5/src/mem/ruby/network/garnet2.0/RoutingUnit.cc:77-89 | the least weight among table entries that offer the destination, or the limit if none is below it |
| RoutingUnit.LookupRoutingTable | gem5/src/mem/ruby/network/garnet2.0/RoutingUnit.cc:67-115 | returns an entry of least weight that offers the destination, the first such one in an ordered network, and fails exactly if there is none |
| RoutingUnit.OutportComputeXY | gem5/src/mem/ruby/network/garnet2.0/RoutingUnit.cc:177-231 | the XY direction; an assertion fails exactly if the packet is already there or came in by a port XY routing excludes |
| LinkFacts.MeshKeys | gem5/src/mem/ruby/network/Topology.cc:49-103 | every entry of a mesh's link map is a step to a neighbour or one side of an external link |
| MeshDistance.RouterDistance | gem5/src/mem/ruby/network/Topology.cc:217-262 | the computed distance from a router to a controller's exit is the weighted grid distance plus 1, cut at 10000, in every mesh of either scheme |
| MeshDistance.ExitDistance | gem5/src/mem/ruby/network/Topology.cc:217-262 | a controller's exit leads to no other controller |
| MeshRouting.PortMeaning | gem5/src/mem/ruby/network/Topology.cc:177-213 | what each entry of a mesh router's table stands for: a neighbour or a controller of its own |
| MeshRouting.ChoiceFollowsRule | gem5/src/mem/ruby/network/garnet2.0/RoutingUnit.cc:67-115 | whatever the lookup returns in a mesh, for every size, scheme, router and controller, is a productive direction of least weight, or the exit at home |
| MeshRouting.RuleIsChoosable | gem5/src/mem/ruby/network/garnet2.0/RoutingUnit.cc:67-115 | everything that rule permits can be returned, as long as the destination is within reach |
| MeshRouting.RouteFoundIff | gem5/src/mem/ruby/network/Topology.cc:40 | a router finds a route to a controller exactly if the weighted distance plus 1 does not exceed 10000, the constant that stands for no link |
| MeshRouting.XYRule | gem5/configs/topologies/Mesh_XY.py:38-39 | with Mesh_XY weights the rule permits exactly the XY direction |
| MeshRouting.WestFirstRule | gem5/configs/topologies/Mesh_westfirst.py:38-44 | with Mesh_westfirst weights it permits West alone while West is productive, and then any productive direction |
| MeshDeadlock.PicksFollowRule | gem5/src/mem/ruby/network/garnet2.0/RoutingUnit.cc:67-115 | the table lookup of a solved mesh exits only at the destination's router and otherwise goes in a permitted direction |
| MeshDeadlock.SomePick | gem5/src/mem/ruby/network/garnet2.0/RoutingUnit.cc:67-115 | within reach there is always an output |
| MeshDeadlock.RankIncreases | gem5/configs/topologies/Mesh_westfirst.py:38-39 | a packet takes links in strictly increasing rank, whatever it picks among equal weights |
| MeshDeadlock.NoDependencyCycle | gem5/configs/topologies/Mesh_XY.py:38-39 | the channel dependency graph of every mesh of either scheme has no cycle |
| MeshDeadlock.RoutesAreMinimal | gem5/configs/topologies/Mesh_XY.py:129-199 | every route has exactly (row difference) + (column difference) hops |
| MeshDeadlock.XYOrder | gem5/configs/topologies/Mesh_XY.py:38-39 | every route in Mesh_XY takes all East and West hops before any North or South hop |
| MeshDeadlock.WestFirstOrder | gem5/configs/topologies/Mesh_westfirst.py:38-39 | no route in Mesh_westfirst goes West after a hop in another direction |
| MeshDeadlock.MeshIsRanked | gem5/configs/topologies/Mesh_westfirst.py:40-44 | both meshes meet the conditions of the switching theory for every choice the lookup may make |
| MeshDeadlock.SendableIff | gem5/src/mem/ruby/network/Topology.cc:40 | a packet can be sent from one controller to another exactly if it is within reach |
| MeshDeadlock.DeliveredAtHome | gem5/src/mem/ruby/network/garnet2.0/InputUnit.cc:102-109 | a packet is only ever taken at the end of its own destination's link |
| Fabric.CapacityKept | gem5/src/mem/ruby/network/garnet2.0/SwitchAllocator.cc:341-351 | no step of a packet puts a channel over its number of virtual channels |
| Fabric.NoDeadlock | gem5/src/mem/ruby/network/garnet2.0/SwitchAllocator.cc:283-338 | a step of the flit-level proofs, about heads alone: if ranks increase along routes and every head is still in the network, some head passes the free-channel check and the ordering check, the latter against every packet that holds a channel of the same input |
| Worms.FlowKept | gem5/src/mem/ruby/network/garnet2.0/SwitchAllocator.cc:143-265 | flit by flit, every move (a head that takes a channel, a body flit that follows on credit, a delivery, a channel freed behind the tail) keeps the worms on their routes, every buffer within its depth and every channel within its number of virtual channels, and loses no flit |
| Worms.TailFollows | gem5/src/mem/ruby/network/garnet2.0/SwitchAllocator.cc:307-313 | a worm whose head has been delivered never waits for credit at its foremost flit |
| WormWork.FlowWorkShrinks | gem5/src/mem/ruby/network/garnet2.0/SwitchAllocator.cc:143-265 | every flit move but the entry of a packet takes work off the network |
| Allocator.OkOverRun | gem5/src/mem/ruby/network/garnet2.0/InputUnit.cc:86-141 | the flit-level invariant holds throughout every run of moves that buffers, ordering checks and a clock that does not go back allow |
| Allocator.RunIsBounded | gem5/src/mem/ruby/network/garnet2.0/SwitchAllocator.cc:143-265 | a run in which no packet enters is no longer than the work at its start |
| OrderedSafe.OrderKept | gem5/src/mem/ruby/network/garnet2.0/SwitchAllocator.cc:316-335 | in an ordered network every allowed move keeps this: if a packet's head has gone on from a channel, so has the head of every packet that came in there before it for the same output |
| OrderedSafe.BehindFollows | gem5/src/mem/ruby/network/garnet2.0/SwitchAllocator.cc:307-335 | if packets fit into one buffer, a flit behind its head can follow, or the first in turn where it waits can |
| OrderedSafe.NeverDeadlocked | gem5/src/mem/ruby/network/garnet2.0/SwitchAllocator.cc:283-338 | in every ranked network that is unordered, or has one virtual channel per link, or has buffers as long as its packets, every reachable state but the empty one has a flit that passes all checks |
| OrderedSafe.Drains | gem5/src/mem/ruby/network/garnet2.0/SwitchAllocator.cc:283-338 | and once no packet enters any more the moves left are bounded, and where none is possible the network is empty |
| Jam.JamForGood | gem5/src/mem/ruby/network/garnet2.0/SwitchAllocator.cc:307-335 | worms that block each other by full channels, full buffers and earlier flits are there at the end of every run, whatever else enters or moves |
| CrossArms.CrossDeadlocks | gem5/src/mem/ruby/network/garnet2.0/SwitchAllocator.cc:316-335 | every ranked ordered network with two virtual channels or more that has such a cross of channels comes to a deadlock with packets one flit longer than a buffer, for every buffer depth, by moves that all checks and the clock allow |
| MeshCross.CrossFits | gem5/configs/topologies/Mesh_XY.py:104-122 | a built mesh with two controllers at every router and at least 5 + (virtual channels - 1) / 2 rows and columns has such a cross in either scheme |
| MeshCross.InitialisedIsBuilt | gem5/configs/topologies/Mesh_XY.py:53-202 | what InitNetwork returns for enough rows, columns and controllers is such a mesh |
| MeshCross.DeadlocksIff | gem5/configs/topologies/Mesh_XY.py:38-39 | in such a mesh packets of up to `size` flits can come to a deadlock exactly if the virtual network is ordered, has two virtual channels or more, and size is greater than the buffer depth; the same condition is exact for a deadlock after which the network never empties again |
| MeshFlits.MeshNeverDeadlocks | gem5/configs/topologies/Mesh_XY.py:38-39 | in every state any mesh network reaches no flit is lost and every buffer and channel is within its size; if it is unordered, has one virtual channel per link, or buffers as long as its packets, no such state is deadlocked |
| MeshFlits.MeshDrains | gem5/configs/topologies/Mesh_XY.py:38-39 | under the same condition, once no packet enters any more the moves left are bounded, and where none is possible the network is empty |
| MeshFlits.FlitsHold | gem5/src/mem/ruby/network/garnet2.0/NetworkInterface.cc:249-252 | a message makes the fewest flits that hold its bytes |
| MeshFlits.MessagesDeadlockIff | gem5/src/mem/ruby/network/garnet2.0/GarnetNetwork.py:41-44 | the same in bytes: messages can deadlock an ordered virtual network exactly if it has two virtual channels or more and a message is longer than flit size times buffers per channel |
| MeshNetwork.BuiltIsMeshNet | gem5/configs/topologies/Mesh_XY.py:53-202 | what the builder makes is a mesh in the sense of the routing theory |
| MeshNetwork.BuildTables | gem5/src/mem/ruby/network/Topology.cc:49-156 | the tables of a mesh are those of a solved mesh |
| MeshNetwork.InitNetwork | gem5/configs/topologies/Mesh_XY.py:53-202 | from options to tables: either the builder's refusal or the tables all other results speak of |
| MeshNetwork.TableAgreesWithXY | gem5/src/mem/ruby/network/garnet2.0/RoutingUnit.cc:67-115 | in a Mesh_XY network the table lookup leaves by the port the direction-based XY algorithm names |
| MeshNetwork.XYAssertionsHold | gem5/src/mem/ruby/network/garnet2.0/RoutingUnit.cc:202-222 | the XY algorithm's assertions on the incoming port never fail for a packet on its route |
| MeshNetwork.AllRoutedIff | gem5/src/mem/ruby/network/Topology.cc:40 | in a mesh whose routers all carry a controller, the table lookup of every router has a result for every controller exactly if the corner-to-corner weight plus 1 is at most 10000 |
| MeshNetwork.BuiltCarries | gem5/configs/topologies/Mesh_XY.py:104-122 | with at least as many controllers as routers, every router of a built mesh carries one |
| MeshNetwork.LongRowIsNotRouted | gem5/src/mem/ruby/network/Topology.cc:40 | in every network over a single row of 10001 routers the lookup at one end has no result for a controller at the other |
| PortOrder.Sorted | gem5/configs/example/read_config.py:142-144 | an ascending rearrangement, in the order of object name, port name and index |
| BindPorts.VisitKeeps | gem5/configs/example/read_config.py:312-321 | visiting a connection keeps the bookkeeping consistent: counts are lengths, what is bound stands at its own index, nothing is bound twice |
| BindPorts.BeforeConsistent | gem5/configs/example/read_config.py:312-321 | the bookkeeping is consistent after every prefix of the pass |
| BindPorts.HalfIsComplete | gem5/configs/example/read_config.py:323-326 | the test on half the list's length is true exactly if every end is bound |
| BindOrder.BlockedIsUnbound | gem5/configs/example/read_config.py:301-321 | a connection that the delays keep out of reach at both its entries is not bound |
| BindOrder.StaysOnSchedule | gem5/configs/example/read_config.py:301-321 | if none is blocked, every connection passed over is still waiting for its second entry |
| BindOrder.CompleteIffNoneBlocked | gem5/configs/example/read_config.py:280-326 | the pass binds everything exactly if no connection is blocked, a condition on the connections and their order alone |
| ConfigManager.CompleteBinds | gem5/configs/example/read_config.py:328-334 | a complete pass, replayed as appends, gives every port its peers at their own indices and nothing else, each connection once |
| ConfigManager.Plan | gem5/configs/example/read_config.py:285-326 | for any list at all: a key error exactly if an entry in turn at its first end names a port that is no entry's first end, otherwise the pass and its test; for a list as documented no key error, and a refusal exactly if some connection is blocked |
| ConfigManager.ConfigManager.BindPorts | gem5/configs/example/read_config.py:280-334 | the same, and what is planned is bound, or nothing at all |
| ConfigManager.OrderableButRefused | gem5/configs/example/read_config.py:301-310 | p[0]-q[1], q[0]-r[1], r[0]-s[0] has a valid order but is refused, against the comment there |
| PipeQueue.SortInOrder | gem5/util/o3-pipeview.py:153-169 | the queue is sorted by sequence number |
| PipeQueue.SortStable | gem5/util/o3-pipeview.py:153-169 | and stably: instructions with the same number stay in their order |
| PipeQueue.Viewer.SkipToStart | gem5/util/o3-pipeview.py:83-107 | where reading starts: at the starting tick, or else the starting number, and on to the next fetch |
| PipeQueue.SkippedIsNotShown | gem5/util/o3-pipeview.py:83-107 | nothing that is skipped would have been printed |
| PipeQueue.Viewer.ProcessTrace | gem5/util/o3-pipeview.py:83-150 | what is printed over a whole trace; it fails exactly if, from the start on, some instruction lies past the stop tick or number by more than the drift or the maximum, and then what was queued is not printed |
| PipeQueue.Viewer.constructor | gem5/util/o3-pipeview.py:53-79 | an empty queue with the given limits and filters |
| PipeQueue.Viewer.QueueInst | gem5/util/o3-pipeview.py:159-164 | appends, and over the maximum sorts and prints down to the minimum |
| PipeQueue.Viewer.PrintInsts | gem5/util/o3-pipeview.py:167-188 | sorts, takes from the front down to the threshold, prints those the five filters let through |
| PipeQueue.NothingTakenYet | gem5/util/o3-pipeview.py:131-135 | a reading that is ended within the first maximum of instructions has printed nothing |
| PipeQueue.NothingLost | gem5/util/o3-pipeview.py:159-188 | for every stream, each instruction is queued or taken, exactly once |
| PipeQueue.AllTakenAtEnd | gem5/util/o3-pipeview.py:146-149 | the end of the trace takes every instruction exactly once |
| PipeQueue.QueueBounded | gem5/util/o3-pipeview.py:159-164 | between instructions the queue never holds more than the maximum |
| PipeQueue.NearlySortedIsSorted | gem5/util/o3-pipeview.py:159-188 | if no instruction has more than `min` earlier larger ones, they are taken in fully sorted order, whatever the maximum |
| Timeline.OneLineIffCompact | gem5/util/o3-pipeview.py:237-242 | there is one line exactly in compact form |
| Timeline.EveryTickOnOneLine | gem5/util/o3-pipeview.py:227-262 | every nonzero tick falls on exactly one of the lines |
| Timeline.ColumnInLine | gem5/util/o3-pipeview.py:260-272 | the column (tick mod span) / cycle time is inside the line |
| CellDrawing.Draw | gem5/util/o3-pipeview.py:264-282 | dots and letters written left to right give the cell-by-cell picture |
| CellDrawing.LineLength | gem5/util/o3-pipeview.py:264-282 | a line has its width plus one for every mark in a cell already used |
| TimelineText.CollectEvents | gem5/util/o3-pipeview.py:255-263 | the line's events in sorted order |
| TimelineText.RenderLine | gem5/util/o3-pipeview.py:264-282 | the text of one line |
| TimelineText.PrintInst | gem5/util/o3-pipeview.py:227-294 | all lines' texts; it fails exactly if no stage was reached |
| TimelineText.StageIsDrawn | gem5/util/o3-pipeview.py:250-275 | every reached stage that is not hidden has its letter on exactly one line, in the cell of its tick |
| TimelineText.FetchedIsPrinted | gem5/util/o3-pipeview.py:266 | an instruction with a fetch tick has its fetch drawn on the first line, so its printing does not fail |
| TimelineText.NoEventsIff | gem5/util/o3-pipeview.py:264-266 | a compact drawing has no event to look at exactly if all ticks are zero |
| TimelineText.TextLength | gem5/util/o3-pipeview.py:250-283 | the visible length of every line |
| CptUpgrader.ApplyRound | gem5/util/cpt_upgrader.py:190-195 | a round in any order applies each ready tag once, after its dependences |
| CptUpgrader.Resolve | gem5/util/cpt_upgrader.py:181-195 | the rounds end; the tags are then the least set closed under ready upgrades, whatever the order within rounds; success exactly if no known tag is missing |
| CptUpgrader.LeastIsUnique | gem5/util/cpt_upgrader.py:181-195 | there is only one such set, so the outcome does not depend on the order |
| CptUpgrader.AppliedBelowClosed | gem5/util/cpt_upgrader.py:181-195 | whatever is applied in dependence order stays below every closed set |
| CptUpgrader.LoadFiles | gem5/util/cpt_upgrader.py:78-122 | loads the files one after the other; ends the program exactly if one has no upgrader function |
| CptUpgrader.LoadedTag | gem5/util/cpt_upgrader.py:82-101 | a known tag is some file's, by default its name without suffix, and depends on what the last file of that tag says, a single string standing for a list of one |
| CptUpgrader.LoadedVersion | gem5/util/cpt_upgrader.py:97-98 | a legacy version stands for the last file that claims it |
| CptUpgrader.LoadedIsValid | gem5/util/cpt_upgrader.py:78-101 | if no two files give the same tag, each legacy version has a known tag of its own |
| CptUpgrader.Registry.constructor | gem5/util/cpt_upgrader.py:75-101 | the registry as loaded |
| CptUpgrader.Registry.LinkLegacy | gem5/util/cpt_upgrader.py:124-128 | versions from 3 on depend on exactly the one before, up to the first gap; fails exactly if 3 exists without 2; nothing else changes |
| CptUpgrader.LegacyInVersionOrder | gem5/util/cpt_upgrader.py:124-128 | from legacy version n the remaining versions are applied in strictly increasing order |
| CptUpgrader.LegacyTags | gem5/util/cpt_upgrader.py:157-162 | the tags of versions 2 to n, or a failure exactly if one is unknown |
| CptUpgrader.TagLine | gem5/util/cpt_upgrader.py:201 | the joined tags split into the same set |
| CptUpgrader.ProcessFile | gem5/util/cpt_upgrader.py:130-205 | every outcome with its exact condition, a missing section for the tags included; an aborted run writes nothing; a written file has the least closed set as its tags and the applied upgrades as its changes |
| CptUpgrader.ProcessTwice | gem5/util/cpt_upgrader.py:130-205 | a second run after a successful one finds nothing to do |
| Aggregator.ReadPages | gem5/util/checkpoint_aggregator.py:105-112 | page-by-page reading takes the declared pages, or what there is |
| Aggregator.MergeItems | gem5/util/checkpoint_aggregator.py:72-77 | the items of a section, physical addresses moved; fails exactly if one is not a number |
| Aggregator.MergeSections | gem5/util/checkpoint_aggregator.py:67-92 | one checkpoint's part of the merged configuration, or the failure of one of its addresses |
| Aggregator.RenameInjective | gem5/util/checkpoint_aggregator.py:59-70 | processor sections of different checkpoints or different names never get the same name |
| Aggregator.ReadAll | gem5/util/checkpoint_aggregator.py:61-115 | memory, page counter, largest tick and configuration after all checkpoints |
| Aggregator.MaxTickIs | gem5/util/checkpoint_aggregator.py:84-87 | the recorded tick is the largest of the checkpoints' and 0 |
| Aggregator.Pad | gem5/util/checkpoint_aggregator.py:121-129 | pads with whole pages of the character 0 to the requested size |
| Aggregator.Aggregate | gem5/util/checkpoint_aggregator.py:44-145 | the merged memory and configuration; fails exactly for no checkpoints, for a processor's physical address that is not a number, or for a last checkpoint without the memory's section |
| Aggregator.MergedLength | gem5/util/checkpoint_aggregator.py:97-112 | the bytes written equal 4096 times the page counter exactly if every checkpoint holds its declared pages, and are fewer otherwise |
| Aggregator.Relocation | gem5/util/checkpoint_aggregator.py:74-76 | a physical address, after relocation, finds its own byte in the merged memory |
| Aggregator.RegionsDisjoint | gem5/util/checkpoint_aggregator.py:98-99 | address ranges of different checkpoints do not overlap |
| Aggregator.RangeSizeIff | gem5/util/checkpoint_aggregator.py:121-134 | the recorded range size is the number of bytes written, padding included, exactly if every checkpoint holds its declared pages |
| Aggregator.NoSectionTwice | gem5/util/checkpoint_aggregator.py:61-139 | the merged configuration names no section twice |
| MergedConfig.CpuSectionItems | gem5/util/checkpoint_aggregator.py:72-80 | a processor's section keeps all its options, except that physical addresses move and a file descriptor map gets its process number |
| MergedConfig.CpuSectionsKept | gem5/util/checkpoint_aggregator.py:67-80 | every processor section of every checkpoint is in the merged configuration, under its new name |
| MergedConfig.OtherSectionsKept | gem5/util/checkpoint_aggregator.py:88-92 | the last checkpoint's other sections are kept as they are |
| MergedConfig.FiguresRecorded | gem5/util/checkpoint_aggregator.py:117-137 | the merged configuration holds the page counter without padding, the next process number, the range size with padding and the latest tick |
| RunControl.Simulator.Simulate | gem5/src/sim/simulate.cc:81-150 | refuses a length that is no unsigned 64-bit number, as the wrapper does, and otherwise stops at the guest's next exit or at the limit, whichever comes first |
| RunControl.Simulator.Drain | gem5/src/python/m5/simulate.py:179-212 | takes as long as the oracle says and swallows the guest's exits until then |
| RunControl.Simulator.SkipCheckpoints | gem5/configs/common/Simulation.py:231-233 | goes on through the guest's checkpoint requests to the target, and fails exactly if the first comes after it |
| RunControl.TakeCheckpoint | gem5/src/python/m5/simulate.py:222-230 | a checkpoint is written when the drain is over |
| RunControl.RunTo | gem5/configs/common/Simulation.py:229-233 | fails exactly if the start is after the first scheduled tick; otherwise the state in which that tick is reached, or the exit that came before |
| RunControl.OnePeriod | gem5/configs/common/Simulation.py:249-253 | one period: its limit, the exit that cut it short, or the run through requests to the scheduled tick |
| RunControl.RunOut | gem5/configs/common/Simulation.py:244-247 | runs for what is left by the schedule, and fails exactly if the end is before it |
| RunControl.Periods | gem5/configs/common/Simulation.py:234-256 | all that follows when the first scheduled tick is reached, for every guest and all drains: which checkpoints are taken when, the tick of the end, and the result |
| RunControl.NoPeriods | gem5/configs/common/Simulation.py:234-250 | a negative period fails at its first turn |
| RunControl.ScriptCheckpoints | gem5/configs/common/Simulation.py:223-258 | the whole function for every guest and all drains: it fails at once exactly if the start is after when, ends without a checkpoint exactly if another exit comes first, and otherwise does what the lemmas below say |
| RunControl.TakenWhen | gem5/configs/common/Simulation.py:234-256 | checkpoint k is taken at when + k periods + all drains so far; one that is reached through the guest's requests, which is the last, at when + k periods + its own drain |
| RunControl.OnScheduleExactly | gem5/configs/common/Simulation.py:234-256 | the checkpoints are on schedule exactly if these drains take no time |
| RunControl.RaisesIff | gem5/configs/common/Simulation.py:239-256 | after the first checkpoint it fails exactly if a second was asked for and maxtick is before when, or if the first exit that is seen is a checkpoint request after its period's scheduled end |
| RunControl.LateAfterDrains | gem5/configs/common/Simulation.py:249-253 | the latter only after drains that took time |
| RunControl.CompleteIff | gem5/configs/common/Simulation.py:239-256 | never more checkpoints than the count and the schedule allow, and all of them exactly if no exit is seen before the last period and only requests in time in that one |
| RunControl.PassesEndIff | gem5/configs/common/Simulation.py:239-256 | exactly when the run ends past maxtick, in terms of the exits and the drains |
| RunControl.WithoutDrains | gem5/configs/common/Simulation.py:223-258 | if the drains take no time: checkpoints on schedule, all of them exactly if no exit comes up to the last but one and only requests before the last, failure only for a maxtick before when, and never an end past maxtick |
| RunControl.AllowedIsMost | gem5/configs/common/Simulation.py:242-244 | the full number is the most that respects both bounds |
| RunControl.ScheduleCutShort | gem5/configs/common/Simulation.py:249-256 | a guest's checkpoint request between the first two of three checkpoints keeps the third from being taken |
| RunControl.DrainPutsBehind | gem5/configs/common/Simulation.py:249-253 | a drain of 20 ticks puts the second checkpoint past maxtick and makes a request there fail |
| CpuSwitching.SwitchBack | gem5/src/python/m5/simulate.py:262-315 | after a switch the reverse switch is accepted and undoes it |
| CpuSwitching.Processors.SwitchCpus | gem5/src/python/m5/simulate.py:241-315 | refuses exactly an empty list or one with a processor to leave that is inactive or one to come that is active or about to leave; otherwise drains; goes through exactly if besides no processor is named twice, and then switches all |
| CpuSwitching.PeriodAndSwitch | gem5/configs/common/Simulation.py:407-418 | one period, and a switch with its drain exactly if it reached its limit; fails exactly if that switch does not go through |
| CpuSwitching.RepeatSwitch | gem5/configs/common/Simulation.py:404-422 | ends, for every guest and all drains: in the first period by an exit, at the first switch if that does not go through, or later at the first exit or at maxtick after the last switch; how many switches, which pairing, and when |
| CpuSwitching.OverrunIff | gem5/configs/common/Simulation.py:420-421 | after a first switch it fails exactly if no exit comes in any period and the last drain takes longer than was left of the run |
| CpuSwitching.NeverPast | gem5/configs/common/Simulation.py:420-422 | a run that does not fail after its first switch never passes maxtick |
| CpuSwitching.SwitchingWithoutDrains | gem5/configs/common/Simulation.py:404-422 | if the drains take no time: it fails exactly if the first period ends past maxtick, and with no exits it ends at maxtick after the switches that leave at most one period |
| CpuSwitching.DrainOverruns | gem5/configs/common/Simulation.py:420-421 | a drain of 65 ticks after the first period of 40 passes a maxtick of 100, and it fails |
| CpuSwitching.Processors.SwitchOut | gem5/src/cpu/base.cc:505-508 | the assertion of switchOut holds throughout exactly if no processor to leave is named twice |
| CpuSwitching.Processors.TakeOver | gem5/src/cpu/base.cc:519-526 | the assertion of takeOverFrom holds throughout exactly if no processor to come is named twice |
| CpuSwitching.SwitchedAlternates | gem5/configs/common/Simulation.py:404-422 | if the first switch goes through so do all others, and the original pairing is back after every second one |
| CacheTree.NumTesters | gem5/configs/example/memtest.py:114-125 | the sum of testers times the products of the fan-outs before them |
| CacheTree.NumTestersCountsTree | gem5/configs/example/memtest.py:114-125 | that sum is the number of testers counted over the tree |
| CacheTree.Validate | gem5/configs/example/memtest.py:150-175 | accepts exactly the well-formed specifications with at most 64 testers in the tree |
| CacheTree.Builder.constructor | gem5/configs/example/memtest.py:228-229 | all subsystem counters zero, nothing connected |
| CacheTree.Builder.TakeIndex | gem5/configs/example/memtest.py:236-242 | the next unused index of the level |
| CacheTree.Builder.ConnectTester | gem5/configs/example/memtest.py:277-279 | one tester, its cache and the crossbar, each port for the first time |
| CacheTree.Builder.ConnectTop | gem5/configs/example/memtest.py:285-294 | testers at the top share a crossbar, or a single one takes the cache directly |
| CacheTree.Builder.Hang | gem5/configs/example/memtest.py:236-265 | a new subsystem's crossbar on a cache that carried nothing yet |
| CacheTree.Builder.MakeInner | gem5/configs/example/memtest.py:259-279 | a subsystem with caches of its own, and everything above it |
| CacheTree.Builder.MakeTreeCaches | gem5/configs/example/memtest.py:274-276 | the caches that carry subtrees, and those subtrees |
| CacheTree.Builder.MakeCacheLevel | gem5/configs/example/memtest.py:233-294 | ends, never indexes out of range; counters grow by the fan-out products of the subtree; exactly its ports, and the cache it hangs on, are newly connected, each to the peer it should have and that peer to it |
| CacheTree.FanoutIsMultiplier | gem5/configs/example/memtest.py:117-119 | subsystems per level are the products of the fan-outs |
| CacheTree.BuildTree | gem5/configs/example/memtest.py:296-297 | the whole tree: each level's counter is the product of the fan-outs, as many testers as computed, and every port of every tester, cache and crossbar above the first connected exactly once, mutually, so that each subsystem hangs on a cache of its own |
| InstTrace.WriteDeps | gem5/util/decode_inst_dep_trace.py:193-204 | a list of dependences, a comma before each |
| InstTrace.WriteRecord | gem5/util/decode_inst_dep_trace.py:157-206 | the line of a record, with defaults 0 and 1 for a missing pc and weight |
| InstTrace.ReadDepList | gem5/util/encode_inst_dep_trace.py:184-195 | the dependences, empty parts passed over, up to the first bad one |
| InstTrace.ReadRecord | gem5/util/encode_inst_dep_trace.py:150-195 | the record of a line, or the first failure; numbers as Python 2 reads them, sign, blanks and the letter L included, within the width of their field |
| InstTrace.InfoReadBack | gem5/util/encode_inst_dep_trace.py:152-180 | the printed fields before the colon are read back exactly if the request fields are there just for loads and stores |
| InstTrace.RecordRoundTrip | gem5/util/encode_inst_dep_trace.py:150-195 | a printed record is read back, defaults filled in, exactly if it has that shape and is not INVALID, for dependence lists of any length |
| TraceFile.WriteTrace | gem5/util/decode_inst_dep_trace.py:156-206 | the whole trace as text |
| TraceFile.ReadTrace | gem5/util/encode_inst_dep_trace.py:148-198 | all lines, up to the first bad one |
| TraceFile.TraceRoundTrip | gem5/util/encode_inst_dep_trace.py:148-198 | a printed trace is read back, defaults filled in, exactly if every record has that shape |
| YearText.PieceReadBack | gem5/util/find_copyrights.py:98-114 | a printed run, of years before 0 as well, is read back as itself exactly if it is one year or has four-digit ends, and otherwise without its last year |
| CopyrightYears.Datestr | gem5/util/find_copyrights.py:175-199 | the printed runs are ascending, disjoint, non-adjacent, and cover exactly the years; fails exactly on no years |
| CopyrightYears.AddPiece | gem5/util/find_copyrights.py:103-114 | the years of one piece: a range, a signed number, or none |
| CopyrightYears.ProcessDates | gem5/util/find_copyrights.py:99-116 | the years of all pieces |
| CopyrightYears.DatesRoundTrip | gem5/util/find_copyrights.py:98-199 | reading back gives the same years exactly if every year next to another one has four digits |
| LatencyRanges.NextSize | gem5/configs/dram/lat_mem_rd.py:154-158 | from m times a power of two, m from 4 to 7, one step leads to the next such number, and to a power of two exactly at the end of an octave |
| LatencyRanges.NoSizeBetween | gem5/configs/dram/lat_mem_rd.py:154-158 | no such number lies in between |
| LatencyRanges.MakeRanges | gem5/configs/dram/lat_mem_rd.py:145-158 | ends; the ranges are exactly the numbers m times 2^s, m from 4 to 7 and s at least 10, ascending, up to the first that covers the maximum |
| LatencyRanges.PowersAreListed | gem5/configs/dram/lat_mem_rd.py:141-158 | every power of two from 4096 on is one of them |
| LatencyPlot.MakeStates | gem5/configs/dram/lat_mem_rd.py:217-237 | state j(k+1) warms range j, the next k measure it |
| LatencyPlot.MakeTransitions | gem5/configs/dram/lat_mem_rd.py:241-245 | each state leads to the next, the last stays |
| LatencyPlot.Filter | gem5/util/dram_lat_mem_rd_plot.py:102-110 | sample i of group j of the filtered list is raw sample j(k+1) + 1 + i |
| LatencyPlot.FinalLatencies | gem5/util/dram_lat_mem_rd_plot.py:102-117 | one result per complete group, for any number of samples: the least of raw samples j(k+1)+1 to j(k+1)+k |
| LatencyPlot.PlotMatchesSweep | gem5/util/dram_lat_mem_rd_plot.py:102-123 | with one sample per state, result j is the least over exactly the states that measured range j |
| Bits.PowerOfTwoIff | gem5/configs/dram/lat_mem_rd.py:142-143 | num & (num - 1) is zero exactly for powers of two |
| Varint.EncodeVarint | gem5/util/protolib.py:146-158 | writes the Base 128 Varint of the value |
| Varint.EncodingIsCanonical | gem5/util/protolib.py:146-158 | those bytes are a varint, stand for the value, and have no superfluous group |
| Varint.CanonicalIsShortest | gem5/util/protolib.py:146-158 | no varint of the same value is shorter |
| Varint.EncodeMessage | gem5/util/protolib.py:160-166 | length, then message |
| Varint.DecodeVarint | gem5/util/protolib.py:101-129 | takes exactly the bytes of one varint and lays its groups over each other; (0, 0) at the end of the file |
| Varint.DecodeMessage | gem5/util/protolib.py:131-144 | a message, or nothing for size 0 |
| Varint.DecodeOfEncode | gem5/util/protolib.py:101-129 | whatever follows, exactly the written bytes are taken, and the value comes back exactly if it is below 128 |
| Varint.DecodeAll | gem5/util/protolib.py:131-144 | all messages up to the first failure |
| Varint.StreamRoundTrip | gem5/util/protolib.py:101-166 | a stream of messages is read back as written exactly if every message has 1 to 127 bytes |

## Left out

- Router pipelines and link delays: a flit that has left one buffer is in the next; stages and cycles in between are not modelled.
- Fabric.NoDeadlock: heads only, and only a step; body flits, credits and their order are in `OrderedSafe.NeverDeadlocked`.
- MeshCross.DeadlocksIff: stated for meshes large enough for the cross and with two controllers at every router; that no setting outside the condition deadlocks is `MeshFlits.MeshNeverDeadlocks`, for every mesh. The deadlock is a run that all checks and the clock allow, not one that a given program's timing is known to produce.
- The network interface: it accepts every flit that reaches it and returns the credit at once, as gem5/src/mem/ruby/network/garnet2.0/NetworkInterface.cc:175-200 does. Its own ordering check (lines 373-386) does not bind copies of a multicast message, which have the same time; both ways are modelled, as a field of the network, and all results hold for both. Deadlock between protocol messages is not treated.
- Other virtual networks: channels of different virtual networks do not interact, so one is modelled, ordered or unordered.
- Switch arbitration: any packet that may be sent can be the next one, which covers the round-robin choice but says nothing about fairness.
- Meshes with removed links: the builder is modelled for any removal list, the routing results need all links.
- Latencies and hop counts that extend_shortest_path computes beside the distances, and the network built from makeLink, since routes do not depend on them.
- Topology.Topology.CreateLinks: asks for non-negative weights and no link from a switch to itself, as the search for cheapest paths needs both; every mesh meets this.
- MeshBuild.MakeMeshXY: the removal list is a parameter here and a constant in the script.
- ConfigManager.ConfigManager.BindPorts: setattr on ports is an append; a name that is no object's is not treated.
- PortConnection.from_string and the rest of the configuration reader.
- PipeQueue.Viewer.ProcessTrace: takes the instructions of the trace one after the other, each from its fetch to its retirement; parsing, colours, headers and the text after the timeline are left out.
- TimelineText.PrintInst: visible characters only; a stage's tick is a natural number, 0 for not reached.
- CptUpgrader.ProcessFile: an upgrade is its tag appended to the body, and adds no section for the tags; file access, backup, the configuration parser and a version that is not a number are left out.
- CptUpgrader.Registry.constructor: asks that each legacy version has a known tag of its own, which `CptUpgrader.LoadedIsValid` gives for files with different tags; two files of one tag, of which the registries would hold different ones, are not treated.
- Aggregator.Aggregate: options are numbers or text from the start; a missing page counter or tick, compression and file access are left out.
- RunControl.Simulator.Drain: how long a drain takes is an oracle, since it depends on what the simulated objects are doing; it ends at the last tick at the latest.
- RunControl.ScriptCheckpoints: the branch that counts instructions is left out.
- CpuSwitching.Processors.SwitchCpus: memory modes, type checks and the takeover itself are left out.
- CacheTree.Builder.MakeCacheLevel: cache parameters, tester intervals and the object tree itself are left out; ports and their peers are modelled.
- InstTrace.WriteRecord: records hold the fields the two scripts use.
- CopyrightYears.Datestr: takes the years sorted; the sort itself is the library's.
- LatencyRanges.MakeRanges: the traces written for each range are left out.
- LatencyPlot.FinalLatencies: samples are real numbers, without rounding.
- Varint.DecodeMessage: a message is its bytes; parsing them is the protobuf library's.
- MeshDirCorners_XY, Crossbar, Pt2Pt, Cluster and memcheck: they repeat what is modelled or add only easier counting.
- The remaining configuration scripts, packet traces, plots and style hooks: option plumbing, I/O or library behaviour.
