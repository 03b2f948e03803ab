# Hospital drone dispatch — a Dafny model

This project models the core of a small hospital supply-drone simulator. Drones
start at a charging hub on a 20 × 20 floor plan. They carry supplies whose weight
sets how fast they drain their battery, and they fly to hospital departments along
shortest routes. A dispatcher hands queued delivery requests to idle, charged
drones. The repository contains two generations of this system, and both are
modelled here:

* **The live simulator** (`app.py`, `backend.py`, `backend/grid.py`, `logic.py`,
  `backend/timing.py`):
  * a walled floor plan with hallways and six rooms (`FloorPlan`);
  * the drone object with its weight-based drain and its direction commands
    (`Backend`), plus the variant that unloads at its destination (`Timing`);
  * the CTAS/urgency/waiting-time priority queue (`Logic`);
  * the A* planner (`Pathfinding`);
  * the per-tick dispatch and movement loop (`App`, with its properties in
    `AppProperties`).
* **The trial dispatcher** (`trial.py`):
  * a room-coloured floor plan where a route may cross only hallways plus its
    start and goal rooms, searched breadth-first (`TrialPlan`);
  * the mission state machine of a drone: idle → outbound → returning
    (`TrialFleet`);
  * the dispatcher that assigns tasks to the first idle drone at the hub whose
    battery covers the round trip (`TrialDispatch`).

Objects that the source mutates are Dafny classes. Each class has a `State()`
snapshot, and each method's postcondition ties the new snapshot to a pure
transition function. The properties are stated about those functions.

The main results:

* `Pathfinding.FindPath` returns a shortest walkable route, or no route exactly
  when none exists.
* `TrialPlan.BfsShortestPath` returns a shortest route through the corridor the
  source allows, or `None` exactly when the goal is unreachable.
* The priority queue is a permutation of its input:
  * CTAS 1 patients come first, in reverse input order (the app re-sorts the
    whole queue on every submit and every tick, so this is not arrival order);
  * every other patient is in ascending score order and keeps arrival order among
    equal scores.
* A drone the trial dispatcher accepts comes back to the hub with exactly the
  battery it was charged for used up.
* One tick of the live simulator:
  * dispatches the prioritised queue onto the available drones in order;
  * leaves every other drone untouched;
  * keeps every drone's displayed position consistent with its drone object,
    keeps every route flyable, and leaves no IDLE or CHARGING drone with a route;
  * sends a drone on a hub cell, or one that can reach the hub, to any
    department but the hub: it is never refused.

## Model

| member | source | states |
|---|---|---|
| Common.FillRect | backend/grid.py:68-97 | a rectangle assignment on the grid sets exactly the cells of the rectangle to the value and leaves every other cell as it was |
| FloorPlan.Carve | backend/grid.py:67-97 | carving the next hallway or room keeps the grid equal to the first k+1 fills laid over walls |
| FloorPlan.PaintIsCellKind | backend/grid.py:65-97 | laying the fills in source order yields, cell by cell, the closed-form plan (walls, hallway rows 4/8/12/16, hallway columns 4/8/12, six rooms) |
| FloorPlan.CreateFloorPlan | backend/grid.py:64-105 | returns a fresh 20 × 20 grid equal to the plan cell by cell |
| FloorPlan.WalkableOnPlan | backend/grid.py:110-114 | on the plan, a cell is walkable exactly when it is inside the grid and not a wall |
| FloorPlan.IsWalkable | backend/grid.py:110-114 | a cell is walkable when it lies inside the grid and is not a wall |
| FloorPlan.Target | backend/grid.py:20-27 | each department's target cell |
| FloorPlan.HubCellReachesAnchor | backend/grid.py:81 | from every hub cell the hub's target is reachable |
| FloorPlan.PlanWalkIff | backend/grid.py:110-114 | on a grid holding the plan, a walk over the grid is a walk over the closed-form plan and back |
| FloorPlan.PlanReachableIff | backend/grid.py:110-114 | on a grid holding the plan, reachability over the grid is reachability over the closed-form plan |
| FloorPlan.HallwayLines | backend/grid.py:68-75 | the hallway rows and columns stay hallway except where the maternity rooms overwrite column 4 in rows 13-15 |
| FloorPlan.HubRegion | backend/grid.py:81 | a cell is hub exactly when it lies in rows 0-3 and columns 0-3 |
| FloorPlan.PlanKindsInRange | backend/grid.py:9-16 | every cell of the plan holds one of the eight cell-type ids 0-7 |
| FloorPlan.AnchorInOwnRoom | backend/grid.py:20-27 | every department's target cell lies in that department's room and is walkable |
| FloorPlan.AnchorsReachable | backend/grid.py:20-27 | every department's target is reachable from the hub target by a walkable route |
| FloorPlan.ReachableTrans | backend/grid.py:110-114 | reachability over walkable cells is transitive |
| Logic.CtasOutranksUrgencyAndWait | logic.py:2-18 | for urgencies 1-5, a lower CTAS level gets a strictly lower (better) score unless that patient has waited 80 minutes or more longer than the other |
| Logic.WaitingRaisesScore | logic.py:12-13 | each extra minute waited adds exactly 1 to the score, so waiting lowers a patient's priority |
| Logic.CalculatePriority | logic.py:9-16 | the score: 100 per CTAS level, plus the minutes waited, minus 5 per urgency point |
| Logic.InsertOne | logic.py:27-48 | one step of the insertion sort: a CTAS 1 patient goes to the front, any other patient to the insertion point |
| Logic.Prioritized | logic.py:20-50 | the reference ordering: the patients inserted one by one in input order |
| Logic.InsertAt | logic.py:36-45 | the insertion point skips CTAS 1 patients and patients whose score is not greater, and stops at the first non-CTAS-1 patient with a strictly greater score |
| Logic.PrioritizePatients | logic.py:20-50 | the insertion-sort loop computes the reference ordering `Prioritized` |
| Logic.PrioritizedIsPermutation | logic.py:20-50 | the sorted list is a permutation of the input (same length, same multiset) |
| Logic.PrioritizedOrdered | logic.py:20-50 | in the result every CTAS 1 patient precedes every other patient, and the others are in ascending score order |
| Logic.CtasOneAhead | logic.py:27-30 | any CTAS 1 patient stands before any non-CTAS-1 patient |
| Logic.NonCtasOneAscending | logic.py:41-48 | after a non-CTAS-1 patient only non-CTAS-1 patients with a score at least as large follow |
| Logic.CtasOneReversed | logic.py:28-29 | the CTAS 1 patients appear in reverse input order |
| Logic.Stable | logic.py:42 | patients with equal scores keep their relative input order (strict comparison) |
| Logic.PrioritizeOrdered | logic.py:20-50 | an already prioritised list is re-sorted to its CTAS 1 block reversed followed by the rest unchanged |
| Logic.SecondPass | logic.py:20-50 | sorting twice puts the CTAS 1 patients back in input order, followed by the once-sorted others, so the sort is not idempotent |
| Logic.LaterCtasOneFirst | logic.py:28-29 | of two CTAS 1 patients, the later one in the input is placed first |
| Logic.CtasOneJumpsQueue | logic.py:27-30 | a CTAS 1 patient that follows a CTAS 3 patient in the input is placed ahead of them |
| Backend.WeightToMultiplier | backend.py:22-32 | no multiplier exactly for weights of 15 kg or more; otherwise a drain multiplier between 1 and 2 |
| Backend.MultiplierMonotone | backend.py:22-32 | a heavier carriable supply never gets a smaller multiplier |
| Backend.Drone.constructor | backend.py:39-48 | a new drone sits at (0, 0) with full battery, no command, no supply, multiplier 1 and no destination |
| Backend.Drone.SetDestination | backend.py:50-53 | only the destination changes |
| Backend.Drone.LoadSupply | backend.py:56-67 | succeeds exactly when the supply weighs under 15 kg; the new state is the load transition |
| Backend.LoadRefused | backend.py:58-62 | a too-heavy supply leaves the drone unchanged |
| Backend.LoadAccepted | backend.py:64-67 | a carriable supply is stored and sets the multiplier for its weight, nothing else changes |
| Backend.Drone.UnloadSupply | backend.py:69-72 | the new state is the unload transition |
| Backend.UnloadUndoesLoad | backend.py:56-72 | unloading after loading gives the same state as unloading without loading |
| Backend.Drone.SetCommand | backend.py:74-87 | only the command changes, to the parsed direction |
| Backend.Lower | backend.py:83 | the result has the input's length and no capital letter; each capital becomes the letter whose capital it is, and every other character is kept |
| Backend.LowerIdempotent | backend.py:83 | lower-casing twice is lower-casing once |
| Backend.LowerToName | backend.py:83-84 | a text lower-cases to an all-lower-case name exactly when it spells that name with any mix of capitals |
| Backend.ParseAnyCase | backend.py:83-87 | a text argument gives direction d exactly when it spells d's name with any mix of capitals |
| Backend.ParseCode | backend.py:75-81 | an integer argument gives direction d exactly when it is d's code, and gives some direction exactly for 1-4 |
| Backend.ParseCommand | backend.py:74-87 | the command an argument sets: none for no argument, the direction with that code for an integer, the direction whose name the lower-cased text spells for a text |
| Backend.Loaded | backend.py:56-67 | the load transition: a carriable supply is stored with its multiplier, a heavier one changes nothing |
| Backend.Unloaded | backend.py:69-72 | the unload transition: no supply and multiplier 1 |
| Backend.Step | backend.py:89-117 | the movement transition: without a command nothing changes; otherwise a move inside the grid shifts one cell and drains 0.5 × multiplier, a move off the grid changes nothing |
| Backend.ParseText | backend.py:83-87 | a text argument gives direction d exactly when its lower-cased form is d's name |
| Backend.ParseCaseInsensitive | backend.py:83-87 | parsing a text and its lower-cased form gives the same command |
| Backend.LowerName | backend.py:84 | the four direction names are already lower case |
| Backend.Drone.Update | backend.py:89-117 | the new state is the movement transition |
| Backend.StepWithoutCommand | backend.py:92-97 | without a command a tick changes nothing |
| Backend.StepEffect | backend.py:99-107 | a tick either leaves position and battery as they were, or moves one cell in the commanded direction inside the grid and drains 0.5 × multiplier; name, command, supply, multiplier and destination never change |
| Backend.StepRefusedAtEdge | backend.py:103-107 | a move that would leave the grid is refused and drains nothing |
| Backend.StepStaysInGrid | backend.py:103-107 | a drone inside the grid stays inside it |
| Backend.BatteryMayGoNegative | backend.py:107 | nothing stops a drone with an empty battery from flying, so its battery goes below zero |
| Backend.StepsRunToEdge | backend.py:89-107 | n ticks with a fixed command advance min(n, room to the edge) cells, then the drone stays put |
| Timing.Drone.constructor | backend/timing.py:60-69 | same initial state as the live drone |
| Timing.Drone.SetDestination | backend/timing.py:71-75 | only the destination changes |
| Timing.Drone.LoadSupply | backend/timing.py:77-88 | succeeds exactly below 15 kg; the same load transition as the live drone |
| Timing.Drone.UnloadSupply | backend/timing.py:90-93 | the same unload transition as the live drone |
| Timing.Drone.SetCommand | backend/timing.py:95-108 | the same command parsing as the live drone |
| Timing.Drone.Update | backend/timing.py:110-141 | the new state is this variant's movement transition |
| Timing.Step | backend/timing.py:110-141 | this variant's movement transition: the live drone's tick, then an unload when a command was set and the drone stands on its destination |
| Timing.AgreesWithBackend | backend/timing.py:110-138 | a tick is the live drone's tick, followed by an unload when a command was set and the drone now stands on its destination |
| Timing.StepWithoutCommand | backend/timing.py:113-119 | without a command a tick changes nothing, not even at the destination |
| Timing.UnloadsAtDestination | backend/timing.py:131-138 | after a tick that ends on the destination the drone carries nothing and has multiplier 1 |
| Timing.RefusedMoveStillUnloads | backend/timing.py:125-138 | a refused edge move on the destination still unloads |
| Timing.RepeatedUnloadHarmless | backend/timing.py:125-138 | once parked on its destination at the edge, further ticks change nothing |
| Timing.StepDrain | backend/timing.py:121-129 | an accepted move shifts one cell and drains 0.5 × multiplier, a refused one keeps position and battery; command and destination never change |
| Timing.SameCellsOneStep | backend/timing.py:110-138 | from the same cell and command, this drone and the live drone move to the same cell |
| Timing.SameCellsAsBackend | backend/timing.py:110-138 | over any number of ticks both drones visit the same cells |
| Timing.RunsToEdge | backend/timing.py:110-129 | n ticks with a fixed command move min(n, room to the edge) cells in that direction |
| Pathfinding.Neighbors | app.py:49-54 | the neighbours of a cell are exactly its four orthogonally adjacent walkable cells |
| Pathfinding.ManhattanStep | app.py:71 | the Manhattan heuristic drops by at most one per step, so it is consistent |
| Pathfinding.PopMin | app.py:65 | the heap pop removes one entry with the least (priority, cell) key and keeps the others |
| Pathfinding.GoalPopped | app.py:64-66 | when the goal is popped, its recorded cost is the optimal route length |
| Pathfinding.QueueExhausted | app.py:64 | when the queue runs empty, a recorded cost for the goal is optimal, and a goal without one is unreachable |
| Pathfinding.Expand | app.py:68-74 | relaxing the neighbours of a popped cell keeps the search invariant and makes progress or changes nothing |
| Pathfinding.Search | app.py:57-75 | the search loop ends with a predecessor map whose links are walkable steps of rising cost, and an optimal cost for the goal, absent exactly when the goal is unreachable |
| Pathfinding.FindPath | app.py:57-82 | an empty path from a cell to itself; otherwise a walk to the goal that does not revisit the start, empty exactly when the goal is unreachable, and no longer than any walk to the goal |
| App.AvailFrom | app.py:87 | the available indices are, in increasing order, exactly the idle drones with battery above 30 |
| App.Available | app.py:87 | a drone is available when it is idle with battery above 30 |
| App.Assign | app.py:97-122 | the assignment transition: both legs are planned, and either the path failure is logged or the drone takes the joined route, the delivering status and the supply |
| App.StepCommand | app.py:138-145 | the command for a one-cell step: right, left, down or up, and none for any other step |
| App.FlyTowards | app.py:138-145 | the drone object after being sent toward the next waypoint: the step's command is set and the drone ticks, or nothing happens when the waypoint is not adjacent |
| App.MoveStep | app.py:127-181 | one drone's movement step: fly to the next waypoint; or finish a delivery or return; or charge, idle, head home or wait |
| App.InitialWorld | app.py:34-46 | the initial session: three idle drones at full battery on their start cells, no tasks and no logs |
| App.DispatchStep | app.py:95-122 | one dispatch iteration consumes the head of the queue and keeps the fleet size |
| App.DispatchN | app.py:94-122 | n dispatch iterations consume exactly the first n tasks and keep the fleet size |
| App.MoveN | app.py:127-183 | moving the first n drones keeps the fleet size |
| App.AfterDispatch | app.py:87-122 | the dispatch phase keeps the fleet size |
| App.Tick | app.py:85-183 | one simulation tick keeps the fleet size |
| App.DispatchNExtend | app.py:94-122 | later planner answers do not affect earlier dispatch iterations |
| App.DispatchNNext | app.py:94-122 | dispatching n+1 tasks is dispatching n and then one more step |
| App.MoveNExtend | app.py:127-183 | later return routes do not affect earlier drones' moves |
| App.Plan | app.py:57-82 | a planner call on the floor plan returns a path, recorded with its request, that keeps the planner's whole contract: no path from a cell to itself; otherwise a walk to the goal that never returns to the start, empty exactly when the goal is unreachable, and no longer than any walk to the goal |
| App.PlannedOnPlan | app.py:57-82 | the planner's contract stated over the grid holding the plan is the same contract stated over the closed-form plan |
| App.InHubOnPlan | app.py:130 | on the plan, the hub test reading the grid agrees with the closed-form hub region |
| App.PlanDelivery | app.py:100-111 | plans a route to the hub only from outside the hub, starts the second leg where the first ends, and plans it to the target |
| App.AssignRoute | app.py:103-122 | as written, the task fails and the drone is unchanged when the second leg is empty and either the first leg is empty too (the source compares the drone's list position with a tuple, which never match) or the first leg does not end at the target; otherwise the drone gets the joined route, the delivering status and the loaded supply |
| App.AssignDrone | app.py:97-122 | updates the drone record and its object to the assignment transition and returns the log line |
| App.MoveRecord | app.py:128-181 | one drone's movement step on the record and its object; moving exactly when its route is non-empty |
| App.NewDrone | app.py:34-41 | each of the three drones starts at its given cell with full battery |
| App.Simulation.constructor | app.py:25-46 | the session starts with the floor plan, no tasks, no logs and the three initial drones |
| App.NewFleet | app.py:34-46 | the three fleet records are over distinct backend drones, each viewed as the initial drone at its start cell with full battery |
| App.Simulation.Enqueue | app.py:240-256 | appending a single request or a batch re-prioritises the whole queue |
| App.Simulation.PrioritizeQueue | app.py:89-90 | the queue is replaced by its prioritised order |
| App.Simulation.DispatchNext | app.py:95-122 | one loop iteration updates the state by the dispatch step; its planner calls keep the planner's contract and are the ones the drone's cell and the task's target call for |
| App.Simulation.Commit | app.py:117-122 | writing an assignment back stores the drone record and appends the log line, which is the dispatch step |
| App.Simulation.DispatchTurn | app.py:95-122 | after n turns the state is n dispatch steps from the start of the loop; one more turn makes it n+1, every planner answer so far being a real planner answer |
| App.Simulation.DispatchLoop | app.py:94-122 | the dispatch loop performs min(tasks, available drones) dispatch steps |
| App.Simulation.DispatchPhase | app.py:87-122 | the dispatch phase computes the state `AfterDispatch` |
| App.Simulation.MoveDrone | app.py:127-183 | moves one drone, touches no other drone and appends that drone's log lines |
| App.Simulation.MovePhase | app.py:124-183 | the movement loop moves every drone and reports whether any was moving; every route home it plans keeps the planner's contract |
| App.Simulation.MoveTurn | app.py:127-181 | the i-th turn of the movement loop extends the loop's state by that drone's movement step |
| App.Simulation.UpdateSimulation | app.py:85-183 | a tick is the dispatch phase followed by the movement phase |
| AppProperties.AfterDispatchClosed | app.py:87-122 | the first m = min(queue, available) prioritised tasks go, in order, to the first m available drones; all other drones are untouched, one log line per task, old logs kept |
| AppProperties.DispatchNDrones | app.py:94-122 | the k-th dispatched task changes only the k-th available drone |
| AppProperties.DispatchNLogs | app.py:113-122 | each dispatch iteration appends exactly one log line and keeps older ones |
| AppProperties.UnavailableNotDispatched | app.py:87 | a busy or low-battery drone is not touched by dispatch |
| AppProperties.AssignOutcome | app.py:113-122 | an assignment either logs a path failure and changes nothing, or sets the delivering status and loads the supply without moving the drone |
| AppProperties.HeavyTaskFliesUnloaded | app.py:117-121 | a task of 15 kg or more is still dispatched, but the refused load leaves the drone flying empty |
| AppProperties.MoveNDrones | app.py:127-183 | the movement loop applies the movement step to each drone in turn and to no other |
| AppProperties.MoveNFlag | app.py:125-134 | the moving flag is set exactly when some drone had a route |
| AppProperties.MoveNLogs | app.py:157-181 | the movement loop only appends log lines |
| AppProperties.TickMovingIff | app.py:125-183 | a tick reports movement exactly when some drone has a route after dispatch |
| AppProperties.TickMovesEach | app.py:85-183 | each drone ends the tick as the movement step of its post-dispatch state |
| AppProperties.InFlightStep | app.py:133-151 | a drone with a route flies to the route's next cell, drains 0.5 × multiplier, keeps its status and logs nothing |
| AppProperties.FlyToNeighbour | app.py:138-145 | a command toward an adjacent cell inside the grid moves the drone there and drains once |
| AppProperties.ChargeOnHub | app.py:165-171 | a consistent idle or charging drone on the hub with less than 100 charges by 2, capped at 100 |
| AppProperties.LowBatteryReturns | app.py:177-181 | a consistent idle drone off the hub below 30 gets the planner's route home, the returning status and a low-battery log line |
| AppProperties.StrandedAtThirty | app.py:87-181 | a consistent idle drone off the hub with exactly 30 is never dispatched and never sent home: a tick leaves it as it is |
| AppProperties.MoveStepConsistent | app.py:133-183 | the movement step keeps the displayed position equal to the object's position, on the grid, with the route a walk from it and no route on an idle or charging drone |
| AppProperties.AssignConsistent | app.py:117-121 | an assignment keeps the drone consistent |
| AppProperties.RouteWalk | app.py:103-117 | the joined route is a walk from the drone's position, the second leg starts where the first ends, and a non-empty second leg ends at the target |
| AppProperties.LoadKeepsPlace | app.py:120-121 | loading never moves the drone nor changes its battery |
| AppProperties.DispatchNConsistent | app.py:94-122 | dispatch keeps every drone consistent |
| AppProperties.MoveNConsistent | app.py:127-183 | movement keeps every drone consistent |
| AppProperties.TickConsistent | app.py:85-183 | a whole tick, with the planner calls it makes, keeps every drone consistent: position on the grid and equal to the object's, battery reading equal to the object's and at most 100, multiplier at least 1, route a walk from the position, and no route on an idle or charging drone |
| AppProperties.AnchorOffHub | backend/grid.py:20-27 | no department but the hub has its target on a hub cell |
| AppProperties.AssignDelivers | app.py:100-122 | a drone on a hub cell, or one that can reach the hub, is never refused a task for another department: it is dispatched on a route from its cell that ends at the target |
| AppProperties.HubAnchorRefusesHub | app.py:104-115 | a drone on the hub's target cell is refused a task for the hub: both legs are empty, so the path failure is logged and the drone is unchanged |
| AppProperties.DispatchDelivers | app.py:94-122 | in a tick, the k-th available drone, on the hub or able to reach it, is dispatched to the k-th prioritised task when that task is not for the hub: the k-th new log line is its dispatch and its route ends at the target |
| AppProperties.AfterDispatchTurn | app.py:94-122 | the k-th turn of a tick's dispatch phase writes the k-th new log line and sets the k-th available drone |
| AppProperties.InitialConsistent | app.py:34-46 | the three initial drones are consistent and start inside the hub |
| AppProperties.ClassWeight | app.py:214-221 | weight classes 1-6 exist and each has a positive weight |
| AppProperties.ClassMultipliers | app.py:214-221 | classes 1-4 drain ×1, ×1.2, ×1.5, ×2, and classes 5 and 6 cannot be carried |
| TrialPlan.PaintRoom | trial.py:22-55 | painting the next room keeps the grid equal to the first k+1 rooms laid over hallway |
| TrialPlan.PaintIsPlanKind | trial.py:20-55 | the rooms in source order give the closed-form plan, cell by cell |
| TrialPlan.BuildFloorPlan | trial.py:18-57 | returns a fresh 20 × 20 grid equal to the plan |
| TrialPlan.CenterInRegion | trial.py:70-78 | each region centre is on the grid and inside its own region |
| TrialPlan.Center | trial.py:70-78 | each region's centre cell |
| TrialPlan.IsWalkable | trial.py:80-85 | a route may enter hallway cells and cells of its start or goal region |
| TrialPlan.BfsShortestPath | trial.py:80-114 | a found path is a shortest route through hallway, start region and goal region; `None` exactly when the goal is unreachable that way; a start equal to the goal gives the one-cell path |
| TrialPlan.CentersReachable | trial.py:70-114 | on the built plan every region centre is reachable from the hub centre |
| TrialPlan.RouteStaysInCorridor | trial.py:80-85 | every cell of a hub-to-region route is hallway, hub or that region |
| TrialPlan.ConnectedTrans | trial.py:80-114 | reachability through the allowed corridor is transitive |
| TrialFleet.WeightToMultiplier | trial.py:144-149 | no multiplier exactly from 15 kg; otherwise one between 1 and 2 |
| TrialFleet.SameClassesAsLive | trial.py:144-149 | the trial weight classes equal the live simulator's |
| TrialFleet.Load | trial.py:173-181 | succeeds exactly below 15 kg; a refusal changes nothing; success stores the supply and its multiplier |
| TrialFleet.Launch | trial.py:187-199 | a mission starts exactly when the drone is idle, at the hub and the supply is carriable; a refusal changes nothing; success loads, records region and route, and sets outbound at index 0 |
| TrialFleet.Step | trial.py:201-249 | a tick keeps the drone well formed (battery at most 100, multiplier between 1 and 2, an idle drone's battery above 0, a drone on a mission holding a route and an index inside it) and never changes its name, home or region |
| TrialFleet.StepsAdd | trial.py:201-249 | for c = a+b, c ticks are a ticks followed by b ticks |
| TrialFleet.IdleRecharge | trial.py:203-209 | an idle drone never moves; at the hub below 100 it gains 0.5 capped at 100, otherwise nothing changes |
| TrialFleet.OutOfBatteryStays | trial.py:211-213 | a drone on a mission with an empty battery stays frozen forever |
| TrialFleet.MissionDrains | trial.py:215-249 | a tick on a mission never raises the battery |
| TrialFleet.OutboundRun | trial.py:215-231 | k outbound ticks walk k cells along the route and drain k × 0.5 × multiplier |
| TrialFleet.ReturnRun | trial.py:233-249 | k returning ticks walk k cells back and drain k × 0.5 |
| TrialFleet.Arrive | trial.py:216-222 | at the route's end the drone unloads, resets the multiplier and turns back |
| TrialFleet.Trip | trial.py:215-249 | with enough charge, 2n+1 ticks fly a route of n steps out and back to the hub, unloaded and returning |
| TrialFleet.RequiredSplits | trial.py:289-291 | the required charge is the outbound drain plus the return drain |
| TrialFleet.RoundTrip | trial.py:187-249 | a launched drone with at least the required charge is back at the hub, unloaded, after 2n+1 ticks, with exactly the required charge used |
| TrialFleet.SpareChargeLands | trial.py:187-249 | with more than the required charge, after 2n+2 ticks the drone is idle at the hub, unloaded, with the required charge used |
| TrialFleet.ExactChargeStrands | trial.py:211-295 | a drone given exactly the required charge reaches the hub with 0 and stays returning forever, never becoming idle again |
| TrialFleet.Drone.constructor | trial.py:153-168 | a new drone is idle at its home with full battery, no supply, no route |
| TrialFleet.Drone.LoadSupply | trial.py:173-181 | the object follows `Load` and reports its success |
| TrialFleet.Drone.UnloadSupply | trial.py:183-185 | only the supply is dropped; the multiplier stays |
| TrialFleet.Unload | trial.py:183-185 | the unload transition: the supply is dropped and the multiplier kept |
| TrialFleet.Drone.StartMission | trial.py:187-199 | the object follows `Launch` and reports its success |
| TrialFleet.Drone.Update | trial.py:201-249 | the object follows `Step` |
| TrialDispatch.FirstReady | trial.py:293-298 | returns the first drone that is idle, at the hub and charged enough, or none exactly when there is no such drone |
| TrialDispatch.NoEarlierReady | trial.py:293-298 | a ready drone with no ready drone before it is the one chosen |
| TrialDispatch.OfferTakesFirstReady | trial.py:281-302 | the offer succeeds exactly when some drone is ready; then only the first ready drone changes, launched on the route; otherwise no drone changes |
| TrialDispatch.OfferKeepsWellFormed | trial.py:281-302 | assigning a task keeps every drone well formed |
| TrialDispatch.Offer | trial.py:281-302 | offering one task: the first ready drone is launched on the route, or nothing changes when no drone is ready |
| TrialDispatch.Round | trial.py:271-279 | the dispatcher round: each task is offered in queue order and kept when the offer fails |
| TrialDispatch.DispatchCoversRoundTrip | trial.py:289-298 | the drone chosen for a task flies it and is back at the hub, unloaded, after 2n+1 ticks, with its battery lowered by exactly the required charge and never below 0 |
| TrialDispatch.RoundNext | trial.py:276-278 | the dispatcher round handles one task at a time, keeping it only when the offer fails |
| TrialDispatch.RoundKeepsOrder | trial.py:275-279 | the tasks left over are a subsequence of the queue, in queue order |
| TrialDispatch.RoundUsesIdleDrones | trial.py:275-279 | every assigned task uses up exactly one idle drone |
| TrialDispatch.AllShortestNext | trial.py:285 | each task of the round is planned with a shortest hub-to-centre route |
| TrialDispatch.Dispatcher.constructor | trial.py:261-265 | a dispatcher starts with the given plan and drones, the hub centre and no tasks |
| TrialDispatch.Dispatcher.AddTask | trial.py:267-269 | the task is appended to the queue |
| TrialDispatch.Dispatcher.PlanRoute | trial.py:282-287 | the route is a shortest route from the hub centre to the region centre |
| TrialDispatch.Dispatcher.FindReady | trial.py:293-298 | the scan over the drones finds `FirstReady` |
| TrialDispatch.Dispatcher.Send | trial.py:297 | only the chosen drone changes, by `Launch` |
| TrialDispatch.Dispatcher.TryAssign | trial.py:281-302 | the fleet changes as `Offer` says on a shortest route, and the result reports whether a drone took the task |
| TrialDispatch.Dispatcher.Update | trial.py:271-279 | the fleet and queue after an update are the round over the old queue, each task planned on a shortest route |
| TrialDispatch.Dispatcher.OfferAll | trial.py:275-279 | offering every queued task in order leaves the fleet and the unassigned tasks as the round over the queue says |
| TrialDispatch.Dispatcher.OfferNext | trial.py:276-278 | offering task k after the first k extends the round by that task on a shortest route, keeping it only when no drone took it |

## Left out

- The clock loops (`trial.py:305-327`, `backend/timing.py:39-53`): the model offers one tick at a time, and the loop that repeats ticks with one-second sleeps is not modelled.
- All printing and board display (`pretty_print`, `print_live_board`, the status prints inside the drone methods): output only.
- The Streamlit user interface (forms, widgets, rendering, `st.rerun`), apart from the weight-class table and the queue updates of the submit and batch buttons.
- The database package (`database/`): it is not part of this model.
- `co2_saved` in `app.py`: a display counter that no other part of the simulator reads.
- The `elif` branch at `app.py:91-92`, which sorts by a `priority` key: `logic.prioritize_patients` always exists, so the branch is dead.
- Real-time waiting: `calculate_priority` reads the wall clock, and the model takes the current time `now` as a parameter.
- Floats are modelled as exact reals, so rounding in battery arithmetic is not captured.
- Backend.Drone.SetCommand: a direction argument that is neither an integer, a string nor `None` is not modelled. Such an argument crashes the source at `.lower()`.
- Uuid-based task ids and `arrival_time` timestamps come from outside the program and are task fields supplied by the caller.
- App: the planner is a method, so the tick's specification functions take each planner call as a recorded answer. The methods return these answers as ghost outputs. Each answer is proved to keep the planner's whole contract (`Planned`) and to be the call that the drone's cell and the task's target call for.
- TrialDispatch.Dispatcher.TryAssign: requires a task under 15 kg. The source crashes on a heavier task when it multiplies by `None` (`trial.py:288-289`).
- TrialDispatch.Dispatcher.Update: requires every queued task to be under 15 kg, for the same reason.
- TrialDispatch.Dispatcher: requires the built floor plan. With it, every region centre is reachable, so the `None` path that would crash `len(path)` at `trial.py:286` cannot arise.
- TrialDispatch.Dispatcher: requires pairwise distinct drone objects. Aliasing one drone object twice in the fleet is not modelled.
- TrialFleet.Drone.Update: requires a well-formed drone. This leaves out a mission started with an empty route, which `start_mission` accepts. Its first tick takes the arrival branch and sets the route index to -1 (`trial.py:216-222`). Its second tick crashes at `self.path[self.path_index - 1]` (`trial.py:242`).
- TrialFleet.Drone.Update: the well-formedness requirement also excludes an idle drone with no charge and a multiplier outside 1..2. No sequence of the drone's methods reaches either state: a drone starts with 100 and multiplier 1, multipliers come from the weight classes or are reset to 1, and a drone that lands with no charge stays returning (`TrialFleet.ExactChargeStrands`).
- The trial `Drone.at_hub` and the live `Drone.set_destination` are plain reads and writes of state. They are modelled as the predicate `AtHub` and the method `SetDestination`.
- `timing.py`'s `weight_to_multiplier` (`backend/timing.py:23-33`) is identical to `backend.py`'s, and the model reuses `Backend.WeightToMultiplier`.
- Backend.Lower: only the ASCII capitals A-Z are lower-cased. Python's Unicode-wide `str.lower` is not modelled.
