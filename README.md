# Sheep flocking benchmark: a verified model

This is a Dafny model of the core of a Unity boid-flocking benchmark. Sheep steer towards a
moving leader with cohesion, separation and alignment. Three agent variants differ only in
how each sheep finds its neighbours:

- **Grid** (`SheepAgentGrid` with `FlockManagerGrid`): a uniform spatial hash, rebuilt every
  frame, and a scan of the 3x3 cells around the sheep's own cell.
- **BVH** (`SheepAgentBVH`): one physics broad-phase sphere query into a reused 20-slot
  collider buffer.
- **Temporal** (`SheepAgentTemporal`): the same query into a 30-slot buffer, timed on the wall
  clock for the benchmark.

`BoidPerformanceMetrics` is the benchmark harness. It waits for tagged sheep, waits out a
warm-up, samples every frame until the test duration has passed, and prints one summary: the
average, minimum and 1%-low frame rate, the maximum frame time, the scripts time per physics
tick and per sheep, and the average allocation per frame.

## Modules

| file | module | models |
|---|---|---|
| `geometry.dfy` | `Geometry` | `Vector3` over the reals, `Mathf.Clamp01`, `Mathf.FloorToInt(a / g)`, and a `VectorMath` value standing for square roots, `normalized`, `ClampMagnitude` and the rotation calls |
| `agents.dfy` | `Agents` | sheep handles, the snapshot of sheep transforms one tick reads, duplicate-free lists |
| `grid_index.dfy` | `GridIndex` | class `FlockManagerGrid`: the `spatialGrid` dictionary, `UpdateSpatialGrid`, registration |
| `steering.dfy` | `Steering` | what the three agents share: hysteresis, the follow term, the separation push, the neighbour sums, their weighted combination, and the velocity update of `FixedUpdate` |
| `grid_agent.dfy` | `GridAgent` | class `SheepAgentGrid`; the spawn-and-register loop of `FlockManagerGrid.Start` |
| `broad_phase.dfy` | `BroadPhase` | `Physics.OverlapSphereNonAlloc` into an `array`, and the loop over the filled buffer |
| `bvh_agent.dfy` | `BvhAgent` | class `SheepAgentBVH` |
| `temporal_agent.dfy` | `TemporalAgent` | class `SheepAgentTemporal` with its `lastCalcTime` timing |
| `statistics.dfy` | `Statistics` | LINQ `Average`, `Min`, `Max`, `OrderBy`, the 1% low, and the truncating `(long)` cast |
| `metrics.dfy` | `Metrics` | the phase flags, the scripts-time tally, the summary, and class `BoidPerformanceMetrics` |

The agents, the grid manager and the metrics collector are classes whose methods update their
fields. Each method's `ensures` ties the new state to a specification function of the old
state and the inputs: `Filed`, `GridSteer`, `BufferSteer`, `Move`, `NextFlags`,
`ScriptsTally` and `Summarize`. The properties are proved about those functions.

The main results:

- **Grid query equals brute force.** Suppose the grid was rebuilt from the positions the
  sheep queries with, the cell size is at least the neighbour radius, and every sheep is
  registered once. Then the 3x3 scan yields exactly the sheep a pass over all registered
  sheep would accept, each once. The steering vector is therefore the same
  (`GridQueryIsBruteForce`, `GridSteeringIsBruteForce`).
- **The rebuild.** It keeps every old key, files every sheep exactly once under the cell of
  its position, and keeps `allSheep` order inside each list. Its bucket sizes sum to the
  number of sheep, and repeating it changes nothing.
- **The buffered broad phase.** It never processes more hits than fit in the buffer, never
  processes the sheep itself, and silently drops the overflow. When the hits fit, it steers
  like brute force.
- **Steering bounds.** The follow term and each separation push have length at most 1. The
  separation push is also at most `maxSeparationForce`. The sums do not depend on the order
  in which neighbours are visited. Damping never speeds a sheep up. Steering never takes its
  horizontal speed past the larger of its current speed and its target speed.
- **Harness phases.** The phases only advance, and the summary is printed exactly once over
  any run that completes the test.
- **Summary figures.** min <= 1% low <= average. Every frame time is at most the maximum.
  The scripts-time average is at most its maximum. The per-sheep time is the average shared
  out over the sheep.

Where the code says one thing in its names, comments or labels and does another, the model
follows what the code does:

- **`SheepAgentTemporal` caches nothing.** `FlockManagerTemporal` declares an
  `updateFrequency` with the tooltip "Memory refresh rate in seconds"
  (`Assets/Scripts/FlockManagers/FlockManagerTemporal.cs:20-21`), but no file reads it. The
  agent queries the broad phase on every tick
  (`Assets/Scripts/SheepAgents/SheepAgentTemporal.cs:43-49`). It differs from the BVH agent
  only in buffer size and in timing itself.
- **A null leader is not skipped.** The agents check `manager` for null but dereference
  `manager.leader` without a check (`Assets/Scripts/SheepAgentGrid.cs:86`,
  `Assets/Scripts/SheepAgents/SheepAgentTemporal.cs:94`). The model passes the leader's
  position as a value.
- **Scripts time is sampled once per rendered frame.** The summary labels the figure "Time
  per FixedUpdate" (`Assets/Scripts/BoidPerformanceMetrics.cs:192`, `:208`), but
  `MeasureScriptsTime` is called from `Update` (`Assets/Scripts/BoidPerformanceMetrics.cs:84`),
  not from `FixedUpdate`.
- **The grid may be stale.** `UpdateSpatialGrid` runs from `Update`
  (`Assets/Scripts/FlockManagers/FlockManagerGrid.cs:71-74`), while the agents query the grid
  in `FixedUpdate` (`Assets/Scripts/SheepAgentGrid.cs:40`). So the grid an agent scans may
  have been filed from older positions. `CalculateFlockingGrid` is stated for whatever grid
  the manager holds. The brute-force equivalence assumes a grid filed from the same snapshot.
- **Some fields are missing.** `MeasureScriptsTime` reads `lastCalcTime` from the BVH and grid
  agents, and `SheepAgentTemporal` reads `manager.sheepLayer` through a `FlockManager`
  (`Assets/Scripts/SheepAgents/SheepAgentTemporal.cs:6`, `:143`). None of those classes
  declares that field. The model gives the metrics collector a per-object record of optional
  times instead, and gives the temporal agent the same settings record as the BVH agent.

## Model

| member | source | states |
|---|---|---|
| Geometry.Clamp01 | Assets/Scripts/SheepAgentGrid.cs:103 | the result lies in [0, 1]: 0 at or below 0, 1 at or above 1, the argument itself in between |
| Geometry.CellIndex | Assets/Scripts/FlockManagers/FlockManagerGrid.cs:97-100 | `FloorToInt(a / g)` is the k with k*g <= a < (k+1)*g |
| Geometry.CellIndexClose | Assets/Scripts/FlockManagers/FlockManagerGrid.cs:21 | two coordinates at most one cell size apart have cell indices differing by at most one, which is why the cell size must be at least the neighbour radius |
| Geometry.ClampMagnitudeBound | Assets/Scripts/SheepAgentGrid.cs:150 | `ClampMagnitude(v, m)` has length at most m and leaves a vector already within m unchanged |
| Geometry.ClampUnitBound | Assets/Scripts/SheepAgentGrid.cs:54-55 | after normalising a direction longer than 1, its squared length is at most 1; a shorter direction is unchanged |
| GridIndex.CellMembersMembers | Assets/Scripts/FlockManagers/FlockManagerGrid.cs:93-109 | the list filed under a cell holds exactly the registered sheep whose position floors into that cell |
| GridIndex.Filed | Assets/Scripts/FlockManagers/FlockManagerGrid.cs:84-111 | after a rebuild the keys are the old keys plus the occupied cells, and an old key with no sheep now holds an empty list |
| GridIndex.FlockManagerGrid.constructor | Assets/Scripts/FlockManagers/FlockManagerGrid.cs:33-36 | the dictionary and the sheep list start empty |
| GridIndex.FlockManagerGrid.UpdateSpatialGrid | Assets/Scripts/FlockManagers/FlockManagerGrid.cs:84-111 | the dictionary afterwards is `Filed` of the old keys, `allSheep` and the current positions |
| GridIndex.FlockManagerGrid.AddToCell | Assets/Scripts/FlockManagers/FlockManagerGrid.cs:103-109 | a missing key gets a new empty list; then the sheep is appended to that key's list and nothing else changes |
| GridIndex.FlockManagerGrid.ClearLists | Assets/Scripts/FlockManagers/FlockManagerGrid.cs:87-90 | every list is emptied and every key is kept |
| GridIndex.FlockManagerGrid.Register | Assets/Scripts/FlockManagers/FlockManagerGrid.cs:66 | the agent is appended to `allSheep` |
| GridIndex.FileOne | Assets/Scripts/FlockManagers/FlockManagerGrid.cs:95-109 | one iteration of the filing loop takes the dictionary filed from a prefix of `allSheep` to the one filed from the prefix one longer |
| GridIndex.FiledSnoc | Assets/Scripts/FlockManagers/FlockManagerGrid.cs:109 | filing one more sheep appends it to its own cell's list and changes no other list |
| GridIndex.FiledNone | Assets/Scripts/FlockManagers/FlockManagerGrid.cs:87-90 | before any sheep is filed, every kept key holds an empty list |
| GridIndex.UnoccupiedCellEmpty | Assets/Scripts/FlockManagers/FlockManagerGrid.cs:87-90 | a cell that no sheep stands in gets an empty list |
| GridIndex.CellMembersKeepsOrder | Assets/Scripts/FlockManagers/FlockManagerGrid.cs:93-109 | every list keeps the sheep in their `allSheep` order |
| GridIndex.CellMembersNoDups | Assets/Scripts/FlockManagers/FlockManagerGrid.cs:93-109 | when `allSheep` has no duplicates, no list has any |
| GridIndex.RebuildFilesEachOnce | Assets/Scripts/FlockManagers/FlockManagerGrid.cs:84-111 | after a rebuild over distinct sheep, each registered sheep occurs exactly once in its own cell's list and in no other, and nothing unregistered is filed |
| GridIndex.RebuildKeepsKeys | Assets/Scripts/FlockManagers/FlockManagerGrid.cs:86-106 | old keys survive; every key is old or occupied; every empty list belongs to an old key |
| GridIndex.RebuildIdempotent | Assets/Scripts/FlockManagers/FlockManagerGrid.cs:84-111 | rebuilding again from the same positions leaves the dictionary unchanged |
| GridIndex.RebuildSizesSum | Assets/Scripts/FlockManagers/FlockManagerGrid.cs:93-110 | the list lengths over all keys add up to the number of registered sheep |
| GridIndex.BucketTotalCount | Assets/Scripts/FlockManagers/FlockManagerGrid.cs:93-110 | over distinct cells that cover every sheep, the per-cell member counts add up to the number of sheep |
| Steering.NextIdle | Assets/Scripts/SheepAgentGrid.cs:91-98 | an idle sheep becomes active iff the leader is farther than 10; an active sheep goes idle iff the leader is nearer than 6 |
| Steering.HysteresisSettles | Assets/Scripts/SheepAgentGrid.cs:91-98 | a second step at the same distance changes nothing |
| Steering.HysteresisBand | Assets/Scripts/SheepAgentGrid.cs:91-98 | at a distance between 6 and 10 the state never changes |
| Steering.FollowIntensity | Assets/Scripts/SheepAgentGrid.cs:103 | the follow intensity lies in [0, 1]: 0 at distance 6 or less, 1 at 10 or more |
| Steering.FollowIntensityMonotone | Assets/Scripts/SheepAgentGrid.cs:103 | the follow intensity grows with the distance to the leader |
| Steering.FollowFactor | Assets/Scripts/SheepAgentGrid.cs:100-109 | an active sheep follows with the intensity; an idle sheep follows with 0.2 iff it drifted beyond 7, and otherwise with 0 |
| Steering.FollowVectorBound | Assets/Scripts/SheepAgentGrid.cs:100-109 | the follow vector is no longer than its factor (at most 1), and is zero for an idle sheep within 7 of the leader |
| Steering.SeparationStrength | Assets/Scripts/SheepAgentGrid.cs:147 | inside the separation radius 2.5 the strength lies in (0, 1] |
| Steering.SeparationFalloff | Assets/Scripts/SheepAgentGrid.cs:145-149 | the squared strength falls as the neighbour moves away |
| Steering.SeparationForceBound | Assets/Scripts/SheepAgentGrid.cs:145-151 | each push has length at most `maxSeparationForce` and at most 1, and is zero beyond the separation radius |
| Steering.Gather | Assets/Scripts/SheepAgentGrid.cs:111-156 | the neighbour count equals the number of accepted neighbours |
| Steering.GatherSnoc | Assets/Scripts/SheepAgentGrid.cs:140-154 | one more accepted neighbour adds its position, heading, push and a count of one |
| Steering.SumOverPermutation | Assets/Scripts/SheepAgentGrid.cs:124-159 | the sums depend only on the multiset of neighbours, not on the visiting order |
| Steering.GatherPermutation | Assets/Scripts/SheepAgentGrid.cs:124-159 | visiting the same neighbours in any order yields the same cohesion, separation, alignment and count |
| Steering.CohesionDamping | Assets/Scripts/SheepAgentGrid.cs:172-173 | the cohesion damping lies in [0, 1] |
| Steering.CohesionDampingAtCentre | Assets/Scripts/SheepAgentGrid.cs:172-173 | a sheep standing at the group centre feels no cohesion |
| Steering.CombineLonely | Assets/Scripts/SheepAgentGrid.cs:182 | without neighbours the steering is the follow term times 3 |
| Steering.IdleScalesFlocking | Assets/Scripts/SheepAgentGrid.cs:162-179 | going idle scales cohesion and alignment by 0.3 and leaves separation and follow unchanged |
| Steering.StepMotion | Assets/Scripts/SheepAgentGrid.cs:45-80 | the new velocity and heading are `Move` of the steering vector, the old motion, the idle state and the tunables |
| Steering.MoveBranches | Assets/Scripts/SheepAgentGrid.cs:47-80 | vertical velocity is never touched; the dead zone stops an idle sheep horizontally without turning it; damping neither turns the sheep nor speeds it up |
| Steering.SteerSpeedBound | Assets/Scripts/SheepAgentGrid.cs:58-72 | when steering, the new horizontal speed is at most the current one or at most the target speed, `speed` times 0.3 (idle) or 1 (active) |
| Steering.LerpToZero | Assets/Scripts/SheepAgentGrid.cs:77-79 | damping towards zero never lengthens the horizontal velocity |
| Steering.LerpConvex | Assets/Scripts/SheepAgentGrid.cs:66-70 | a clamped `Lerp` between two ground vectors is no longer than the longer of them |
| GridAgent.Around | Assets/Scripts/SheepAgentGrid.cs:125-129 | the scan visits nine cells |
| GridAgent.AroundAt | Assets/Scripts/SheepAgentGrid.cs:125-129 | loop iteration (x, y) visits cell `myGridPos + (x, y)`, entry 3(x+1)+(y+1) of the scan order |
| GridAgent.AroundMembers | Assets/Scripts/SheepAgentGrid.cs:124-129 | the scan covers exactly the cells at most one step away along each axis |
| GridAgent.AroundNoDups | Assets/Scripts/SheepAgentGrid.cs:124-129 | the scan visits each of those cells once |
| GridAgent.ScanMembers | Assets/Scripts/SheepAgentGrid.cs:129-133 | the scan meets exactly the sheep listed under one of its cells; a missing key contributes nothing |
| GridAgent.AcceptedMembers | Assets/Scripts/SheepAgentGrid.cs:136-140 | the filter keeps exactly the entries that are not the sheep itself and lie within `neighborDistance` |
| GridAgent.FiledLookup | Assets/Scripts/SheepAgentGrid.cs:131 | `TryGetValue` on a rebuilt grid returns exactly the sheep standing in that cell |
| GridAgent.NearbyCellIsAround | Assets/Scripts/SheepAgentGrid.cs:119-129 | with `neighborDistance <= gridSize`, a sheep within the radius stands in one of the nine scanned cells |
| GridAgent.GridQueryMembers | Assets/Scripts/SheepAgentGrid.cs:124-155 | with `neighborDistance <= gridSize`, the grid query accepts a sheep iff a pass over `allSheep` accepts it |
| GridAgent.ScanNoDups | Assets/Scripts/SheepAgentGrid.cs:124-133 | scanning distinct cells of a grid rebuilt from distinct sheep meets no sheep twice |
| GridAgent.GridQueryIsBruteForce | Assets/Scripts/SheepAgentGrid.cs:124-159 | with `neighborDistance <= gridSize` and distinct sheep, the grid neighbours are a permutation of the brute-force neighbours |
| GridAgent.GridSteeringIsBruteForce | Assets/Scripts/SheepAgentGrid.cs:111-159 | under the same conditions, the neighbour sums from the grid equal those from brute force |
| GridAgent.ScanStep | Assets/Scripts/SheepAgentGrid.cs:133-155 | one list entry adds its contribution if it is accepted, and nothing otherwise |
| GridAgent.SheepAgentGrid.constructor | Assets/Scripts/SheepAgentGrid.cs:7-28 | a new agent has no manager, is not idle, and holds the given tunables and rigidbody state |
| GridAgent.SheepAgentGrid.CalculateFlockingGrid | Assets/Scripts/SheepAgentGrid.cs:83-183 | steps `isIdle` by the hysteresis rule and returns the weighted combination of the follow term and the sums over the grid neighbours |
| GridAgent.SheepAgentGrid.ScanGrid | Assets/Scripts/SheepAgentGrid.cs:124-159 | the nested loops leave the sums over the accepted sheep of the nine cells |
| GridAgent.SheepAgentGrid.ScanRow | Assets/Scripts/SheepAgentGrid.cs:127-158 | the inner loop extends the sums by the three cells of one row |
| GridAgent.SheepAgentGrid.ScanAt | Assets/Scripts/SheepAgentGrid.cs:129-131 | one cell extends the sums by its list, or by nothing when it has no key |
| GridAgent.SheepAgentGrid.ScanCell | Assets/Scripts/SheepAgentGrid.cs:133-156 | the loop over one cell's list adds every entry other than the sheep itself within `neighborDistance` |
| GridAgent.SheepAgentGrid.FixedUpdate | Assets/Scripts/SheepAgentGrid.cs:40-81 | without a manager nothing changes; otherwise `isIdle` steps and the motion becomes `Move` of the grid steering vector |
| GridAgent.RegisterSpawned | Assets/Scripts/FlockManagers/FlockManagerGrid.cs:52-68 | each spawned object that carries an agent gets the manager and is appended to `allSheep`, in spawn order; only `allSheep` and the agents' `manager` field may change |
| GridAgent.SpawnedIds | Assets/Scripts/FlockManagers/FlockManagerGrid.cs:62-67 | no more agents are registered than objects were spawned |
| GridAgent.SpawnedIdsMembers | Assets/Scripts/FlockManagers/FlockManagerGrid.cs:62-67 | every spawned agent is registered, and nothing else is |
| GridAgent.SpawnedIdsNoDups | Assets/Scripts/FlockManagers/FlockManagerGrid.cs:62-67 | distinct new agents keep `allSheep` free of duplicates |
| BroadPhase.Filled | Assets/Scripts/SheepAgentBVH.cs:110-115 | the count is at most both the hits and the capacity, and equals one of them |
| BroadPhase.OverlapSphereNonAlloc | Assets/Scripts/SheepAgentBVH.cs:110-115 | the first hits that fit are written to the buffer, the rest of the buffer is left as it was, and their number is returned |
| BroadPhase.OthersMembers | Assets/Scripts/SheepAgentBVH.cs:121 | skipping the sheep itself keeps exactly the other entries |
| BroadPhase.OthersNoDups | Assets/Scripts/SheepAgentBVH.cs:118-121 | skipping keeps a duplicate-free buffer duplicate-free |
| BroadPhase.AccumulateBuffer | Assets/Scripts/SheepAgentBVH.cs:118-137 | the loop leaves the sums over every filled slot but the sheep itself; the count is at most the filled length |
| BroadPhase.BufferedNeighboursBound | Assets/Scripts/SheepAgentBVH.cs:110-121 | at most `capacity` neighbours are processed, never the sheep itself, only reported hits, and all others when the hits fit |
| BroadPhase.BufferDropsOverflow | Assets/Scripts/SheepAgentBVH.cs:12-13 | hits that do not fit into the buffer are never processed |
| BroadPhase.BufferedMatchesBruteForce | Assets/Scripts/SheepAgentBVH.cs:109-137 | when the broad phase reports exactly the sheep within the radius and they fit, the buffered sums equal the brute-force sums |
| BvhAgent.SheepAgentBVH.constructor | Assets/Scripts/SheepAgentBVH.cs:12-13 | a new agent owns a fresh 20-slot buffer, has no manager and is not idle |
| BvhAgent.SheepAgentBVH.CalculateFlocking | Assets/Scripts/SheepAgentBVH.cs:83-160 | steps `isIdle`, fills the buffer with the hits that fit while keeping its stale tail, and returns the combination over the buffered neighbours |
| BvhAgent.SheepAgentBVH.FixedUpdate | Assets/Scripts/SheepAgentBVH.cs:44-81 | without a manager nothing changes; otherwise the motion becomes `Move` of the buffered steering vector |
| TemporalAgent.ElapsedMillis | Assets/Scripts/SheepAgents/SheepAgentTemporal.cs:49 | the elapsed wall-clock seconds converted to milliseconds; never negative when the clock did not go back |
| TemporalAgent.SheepAgentTemporal.constructor | Assets/Scripts/SheepAgents/SheepAgentTemporal.cs:9-12 | a new agent owns a fresh 30-slot buffer, has no manager, is not idle and reports 0 ms |
| TemporalAgent.SheepAgentTemporal.CalculateFlocking | Assets/Scripts/SheepAgents/SheepAgentTemporal.cs:92-197 | the BVH rule with a 30-slot buffer |
| TemporalAgent.SheepAgentTemporal.FixedUpdate | Assets/Scripts/SheepAgents/SheepAgentTemporal.cs:43-90 | without a manager nothing changes; otherwise `lastCalcTime` is the timed interval in ms and the motion becomes `Move` of the buffered steering vector |
| Statistics.MinIsLeast | Assets/Scripts/BoidPerformanceMetrics.cs:183 | `Min()` is a sample and is at most every sample |
| Statistics.MaxIsGreatest | Assets/Scripts/BoidPerformanceMetrics.cs:190 | `Max()` is a sample and is at least every sample |
| Statistics.MeanBetween | Assets/Scripts/BoidPerformanceMetrics.cs:182-194 | the average lies between the minimum and the maximum |
| Statistics.SumPermutation | Assets/Scripts/BoidPerformanceMetrics.cs:186-188 | reordering the samples does not change their sum |
| Statistics.SortFacts | Assets/Scripts/BoidPerformanceMetrics.cs:186 | `OrderBy(x => x)` yields an ascending permutation of the samples |
| Statistics.OnePercentIndex | Assets/Scripts/BoidPerformanceMetrics.cs:187 | at least one sample and never more than there are; from 200 samples on, exactly the floor of 1% |
| Statistics.PrefixMeanAtMost | Assets/Scripts/BoidPerformanceMetrics.cs:188 | the mean of a non-empty prefix of an ascending sequence is at most the overall mean |
| Statistics.OnePercentLowBounds | Assets/Scripts/BoidPerformanceMetrics.cs:185-188 | the 1% low lies between the minimum and the average |
| Statistics.OnePercentLowSingle | Assets/Scripts/BoidPerformanceMetrics.cs:185-188 | the 1% low of one sample is that sample |
| Statistics.UniformSamples | Assets/Scripts/BoidPerformanceMetrics.cs:182-190 | identical samples give that value as average, minimum, maximum and 1% low |
| Statistics.TruncateTowardZero | Assets/Scripts/BoidPerformanceMetrics.cs:200 | `(long)` drops the fraction towards zero, staying within one of the argument |
| Statistics.AverageAllocBounds | Assets/Scripts/BoidPerformanceMetrics.cs:200 | the reported average allocation is the true mean truncated towards zero |
| Metrics.NextFlags | Assets/Scripts/BoidPerformanceMetrics.cs:49-94 | flags only switch on; without sheep found or tagged nothing changes; once sheep are known, recording is on iff the warm-up has elapsed or it already was, and completion likewise for the test duration |
| Metrics.PhaseMonotone | Assets/Scripts/BoidPerformanceMetrics.cs:246-248 | flags that only switch on describe phases that only advance |
| Metrics.RunMonotone | Assets/Scripts/BoidPerformanceMetrics.cs:49-94 | along any run of frames the flags only switch on and the phase never goes back |
| Metrics.PrintedOnce | Assets/Scripts/BoidPerformanceMetrics.cs:87-93 | a run that completes the test prints the summary exactly once; any other run never prints it |
| Metrics.CompletedAfterRecording | Assets/Scripts/BoidPerformanceMetrics.cs:60-93 | with the warm-up no longer than the test, a completed test has been recording |
| Metrics.CalcTime | Assets/Scripts/BoidPerformanceMetrics.cs:125-159 | an object yields no time iff it is destroyed or has none of the four agent components; a base agent's time comes first |
| Metrics.TallyIsSum | Assets/Scripts/BoidPerformanceMetrics.cs:122-160 | the accumulated total and count are the sum and number of the recognised agents' times |
| Metrics.TallyCount | Assets/Scripts/BoidPerformanceMetrics.cs:123-162 | the count never exceeds the number of objects, and it is zero iff no object is recognised |
| Metrics.Summarize | Assets/Scripts/BoidPerformanceMetrics.cs:169-223 | "No data recorded" iff no frame was sampled; a report iff every history has data; with histories of equal length, LINQ throws only when the scripts history is empty |
| Metrics.SummarizeFrameFigures | Assets/Scripts/BoidPerformanceMetrics.cs:181-213 | in a printed report min <= 1% low <= average, the minimum bounds every frame rate, the maximum frame time bounds every frame time, and every sampled frame is counted |
| Metrics.SummarizeScriptsFigures | Assets/Scripts/BoidPerformanceMetrics.cs:192-197 | in a printed report the average scripts time is at most its maximum, and the per-sheep time times the sheep count is the average |
| Metrics.BoidPerformanceMetrics.constructor | Assets/Scripts/BoidPerformanceMetrics.cs:8-47 | the collector starts waiting for sheep with empty histories and the start time noted |
| Metrics.BoidPerformanceMetrics.FixedUpdate | Assets/Scripts/BoidPerformanceMetrics.cs:96-102 | physics ticks are counted only inside the recording window |
| Metrics.BoidPerformanceMetrics.TryFindSheep | Assets/Scripts/BoidPerformanceMetrics.cs:104-116 | the tagged objects become `allSheep`; if there are any, the test restarts now with that many sheep, and otherwise nothing else changes |
| Metrics.BoidPerformanceMetrics.MeasureScriptsTime | Assets/Scripts/BoidPerformanceMetrics.cs:118-167 | the summed time of the recognised agents is appended, and becomes the current scripts time, iff at least one agent was recognised |
| Metrics.BoidPerformanceMetrics.PrintResults | Assets/Scripts/BoidPerformanceMetrics.cs:169-223 | logs `Summarize` of the current histories |
| Metrics.BoidPerformanceMetrics.Sample | Assets/Scripts/BoidPerformanceMetrics.cs:79-84 | appends 1/deltaTime, deltaTime*1000, the frame's allocation and, when there is one, the scripts total |
| Metrics.BoidPerformanceMetrics.StartRecordingIfDue | Assets/Scripts/BoidPerformanceMetrics.cs:61-65 | recording switches on once the warm-up has elapsed and then stays on |
| Metrics.BoidPerformanceMetrics.BeginFrame | Assets/Scripts/BoidPerformanceMetrics.cs:58-74 | sets the test clock, the recording flag, the current rate and frame time, and the allocation since the previous frame |
| Metrics.BoidPerformanceMetrics.SampleIfRecording | Assets/Scripts/BoidPerformanceMetrics.cs:77-85 | samples only inside the recording window |
| Metrics.BoidPerformanceMetrics.CompleteIfDue | Assets/Scripts/BoidPerformanceMetrics.cs:88-93 | the frame that reaches the test duration completes the test and prints exactly one summary |
| Metrics.BoidPerformanceMetrics.EndFrame | Assets/Scripts/BoidPerformanceMetrics.cs:76-93 | samples inside the window, then completes and prints when due, keeping the collector's invariant |
| Metrics.BoidPerformanceMetrics.Tick | Assets/Scripts/BoidPerformanceMetrics.cs:58-93 | one frame once sheep are known: the flags advance by `NextFlags`, the frame is sampled iff recording and not yet completed, and the summary is printed on the completing frame |
| Metrics.BoidPerformanceMetrics.Update | Assets/Scripts/BoidPerformanceMetrics.cs:49-94 | one rendered frame: until sheep are found only the search changes anything (histories, clocks, counts and summaries stay as they were); then as `Tick`; `fixedUpdateCount` and the settings are never touched, the sheep count is fixed once found, the histories keep equal lengths and at most one summary is ever printed |

## Left out

- Vector arithmetic is over the reals, not 32-bit floats. Rounding, NaN and infinities are
  not modelled.
- Square roots, `normalized`, `ClampMagnitude`'s normalisation, `Quaternion.LookRotation`
  and `Quaternion.Slerp` are supplied by a `VectorMath` value. The model assumes only that
  lengths are non-negative Euclidean norms and that `normalized` never returns a vector
  longer than 1.
- The physics broad phase (`Physics.OverlapSphereNonAlloc`'s search, layers and colliders)
  is a function from sphere and layer mask to the hit list. Which sheep it reports is not
  modelled.
- The rigidbody is reduced to its velocity and heading. Position integration and gravity are
  not modelled. Every agent of a tick reads the same snapshot of transforms.
- `Random.Range` for speed and spawn positions, `Instantiate` and `GetComponent` are inputs:
  the drawn speed is a constructor argument, and the spawned objects are a list of optional
  agents.
- Clocks (`Time.time`, `Time.deltaTime`, `Time.fixedDeltaTime`,
  `Time.realtimeSinceStartup`), the allocation counter and `FindGameObjectsWithTag` are
  method parameters.
- `Debug.Log` output, the text formatting of the summary, `OnGUI`, `OnDrawGizmos`, camera
  toggling, `Awake` and the `Instance` singleton are not modelled. Each call of
  `PrintResults` records the data it summarised in the field `printed`.
- Metrics.Summarize: requires a positive sheep count; the collector's invariant guarantees one whenever a summary is printed.
- Metrics.Summarize: the "Actual FixedUpdates per second" line (`1000 / average`) is not
  part of the report, because a zero average gives a float infinity, which reals cannot
  express.
- Statistics.OnePercentIndex: the count uses exact `n / 100` instead of the float product
  `n * 0.01f`, which may round differently for some sample counts.
- Metrics.BoidPerformanceMetrics.Update: `deltaTime > 0` is required, because the frame rate
  `1 / deltaTime` is a float division that gives infinity at zero.
- Metrics.BoidPerformanceMetrics.Tick: the scripts tally is also passed as a ghost argument,
  which must equal `ScriptsTally` of the objects. It only names a value the method
  recomputes.
- `SheepAgent` (the brute-force agent), `FlockManager`, `FlockManagerBVH` and
  `FlockManagerTemporal` are not part of this model. Brute force appears only as the
  reference `BruteForce` that the grid and broad-phase queries are compared with.
- `gridSize` is a positive real. The source does not check it, and a zero cell size would
  make every cell index infinite.
- BroadPhase.BufferedMatchesBruteForce assumes the broad phase reports each sheep once and
  reports exactly the sheep within the radius. Nothing in the source guarantees that.
