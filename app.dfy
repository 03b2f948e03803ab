/**
 * The live simulation's engine: the fleet of three drones, the task queue,
 * the event log, and the per-tick dispatcher that hands prioritised tasks to
 * idle drones and then moves every drone one step along its path.
 *
 * Drone positions are (row, column); the backend drone stores the column as
 * `xposition` and the row as `yposition`.
 */
module App {
  import opened Common
  import opened FloorPlan
  import opened Logic
  import opened Pathfinding
  import B = Backend

  /** A drone's status text: "IDLE", "CHARGING", "RETURNING" or "DELIVERING: <item>". */
  datatype Status = Idle | Charging | Returning | Delivering(item: string)

  function StatusText(s: Status): string
  {
    match s
    case Idle => "IDLE"
    case Charging => "CHARGING"
    case Returning => "RETURNING"
    case Delivering(item) => "DELIVERING: " + item
  }

  /** One line of the event log. */
  datatype LogEvent =
    | PathFailed(target: Department)
    | Dispatched(id: string, target: Department)
    | Arrived(id: string)
    | ReturnedToBase(id: string)
    | BatteryLow(id: string)

  function Message(e: LogEvent): string
  {
    match e
    case PathFailed(t) => "Path failed for " + Name(t)
    case Dispatched(id, t) => id + " dispatched -> " + Name(t)
    case Arrived(id) => id + " Arrived at Destination."
    case ReturnedToBase(id) => id + " Returned to Base."
    case BatteryLow(id) => id + " Battery Low (<30% remaining). Returning to hub."
  }

  /** A drone entry as the dispatcher sees it, with its backend drone's state in place of the object. */
  datatype DroneView = DroneView(id: string, drone: B.DroneState, pos: Cell, bat: real, status: Status, path: seq<Cell>)

  /** The session state the engine works on. */
  datatype World = World(drones: seq<DroneView>, tasks: seq<Task>, logs: seq<LogEvent>)

  /** One call of the path planner: where from, where to, and what it returned. */
  datatype Call = Call(start: Cell, goal: Cell, path: seq<Cell>)

  /** The planner calls of one dispatch: the leg to the hub (skipped on a hub cell) and the leg to the target. */
  datatype Leg = Leg(toHub: Option<Call>, toTarget: Option<Call>)

  /** The path a recorded call gave for the request (start, goal); no path if no such call was recorded. */
  function Answer(c: Option<Call>, start: Cell, goal: Cell): seq<Cell>
  {
    if c.Some? && c.value.start == start && c.value.goal == goal then c.value.path else []
  }

  function LegAt(legs: seq<Leg>, k: nat): Leg
  {
    if k < |legs| then legs[k] else Leg(None, None)
  }

  function HomeAt(homes: seq<Option<Call>>, k: nat): Option<Call>
  {
    if k < |homes| then homes[k] else None
  }

  /**
   * What the planner promises on the floor plan for a request from `start`
   * to `goal`: no path
   * when start is the goal; otherwise a walk to the goal that never comes back
   * to start, empty exactly when the goal cannot be reached; and no walk to
   * the goal is shorter.
   */
  ghost predicate Planned(start: Cell, goal: Cell, path: seq<Cell>)
  {
    (start == goal ==> path == []) &&
    (path != [] ==> PlanWalk(start, path) && End(start, path) == goal && start !in path) &&
    (start != goal ==> (path == [] <==> !PlanReachable(start, goal))) &&
    (forall steps :: PlanWalk(start, steps) && End(start, steps) == goal ==> |path| <= |steps|)
  }

  /** The planner's own contract on a grid holding the plan is `Planned`. */
  lemma PlannedOnPlan(grid: array2<int>, start: Cell, goal: Cell, path: seq<Cell>)
    requires IsPlan(grid)
    requires start == goal ==> path == []
    requires path != [] ==> Walk(grid, start, path) && End(start, path) == goal && start !in path
    requires start != goal ==> (path == [] <==> !Reachable(grid, start, goal))
    requires forall steps :: Walk(grid, start, steps) && End(start, steps) == goal ==> |path| <= |steps|
    ensures Planned(start, goal, path)
  {
    PlanWalkIff(grid, start, path);
    PlanReachableIff(grid, start, goal);
    forall steps | PlanWalk(start, steps) && End(start, steps) == goal
      ensures |path| <= |steps|
    {
      PlanWalkIff(grid, start, steps);
    }
  }

  /** A recorded call's path is what the planner promises for its request. */
  ghost predicate Answered(c: Option<Call>)
  {
    c.Some? ==> Planned(c.value.start, c.value.goal, c.value.path)
  }

  /**
   * The calls a dispatch from `pos` to `target` makes: to the hub anchor
   * exactly when `pos` is off the hub, then to the target from where that leg
   * ends (from `pos` when it is empty).
   */
  ghost predicate LegFor(pos: Cell, target: Cell, leg: Leg)
  {
    var p1 := if HubCell(pos) then [] else Answer(leg.toHub, pos, Target(Hub));
    (leg.toHub.Some? <==> !HubCell(pos)) &&
    (leg.toHub.Some? ==> leg.toHub.value.start == pos && leg.toHub.value.goal == Target(Hub)) &&
    leg.toTarget.Some? && leg.toTarget.value.goal == target &&
    leg.toTarget.value.start == (if p1 != [] then p1[|p1| - 1] else pos)
  }

  /** Whether a cell is a hub cell of the grid. */
  predicate InHub(grid: array2<int>, p: Cell)
    requires IsShape(grid)
    reads grid
  {
    InGrid(p.0, p.1) && grid[p.0, p.1] == IdHub
  }

  lemma InHubOnPlan(grid: array2<int>, p: Cell)
    requires IsPlan(grid)
    ensures InHub(grid, p) <==> HubCell(p)
  {
  }

  /** A drone its movement turn sends home: no path, IDLE or CHARGING, off the hub and below 30 battery. */
  predicate HeadsHome(v: DroneView)
  {
    v.path == [] && (v.status == Idle || v.status == Charging) && !HubCell(v.pos) && v.drone.battery < 30.0
  }

  /** The call a movement turn of `v` makes: one from its cell to the hub anchor when it heads home, none otherwise. */
  ghost predicate HomeFor(v: DroneView, home: Option<Call>)
  {
    if HeadsHome(v) then home.Some? && home.value.start == v.pos && home.value.goal == Target(Hub)
    else home.None?
  }

  // ----- Dispatch -----

  /** A drone the dispatcher may use: status exactly IDLE and more than 30 battery. */
  predicate Available(v: DroneView)
  {
    v.status == Idle && v.drone.battery > 30.0
  }

  /** One dispatch turn's calls: those a dispatch from `pos` to `target` makes, answered as the planner promises. */
  ghost predicate TurnOk(pos: Cell, target: Cell, leg: Leg)
  {
    Answered(leg.toHub) && Answered(leg.toTarget) && LegFor(pos, target, leg)
  }

  /**
   * The recorded calls of the first |legs| dispatch turns, turn k pairing task
   * k with drone `avail[k]`: each turn made the calls of a dispatch of that
   * task from that drone's cell.
   */
  ghost predicate LegsOk(w: World, avail: seq<nat>, legs: seq<Leg>)
    decreases |legs|
  {
    |legs| <= |avail| && |legs| <= |w.tasks| &&
    (legs != [] ==>
      var k := |legs| - 1;
      LegsOk(w, avail, legs[..k]) && avail[k] < |w.drones| &&
      TurnOk(w.drones[avail[k]].pos, Target(w.tasks[k].target), legs[k]))
  }

  lemma LegsOkNext(w: World, avail: seq<nat>, legs: seq<Leg>, leg: Leg)
    requires LegsOk(w, avail, legs)
    requires |legs| < |avail| && |legs| < |w.tasks| && avail[|legs|] < |w.drones|
    requires TurnOk(w.drones[avail[|legs|]].pos, Target(w.tasks[|legs|].target), leg)
    ensures LegsOk(w, avail, legs + [leg])
  {
    assert (legs + [leg])[..|legs|] == legs;
  }

  /** Turn k of a list of recorded turns made the calls of its dispatch. */
  lemma {:induction false} LegsOkAt(w: World, avail: seq<nat>, legs: seq<Leg>, k: nat)
    requires LegsOk(w, avail, legs) && k < |legs|
    ensures avail[k] < |w.drones| && TurnOk(w.drones[avail[k]].pos, Target(w.tasks[k].target), legs[k])
  {
    if k < |legs| - 1 {
      LegsOkAt(w, avail, legs[..|legs| - 1], k);
    }
  }

  /** The recorded calls of a tick's dispatch phase: one turn per task handed out, as `LegsOk` says. */
  ghost predicate DispatchOk(w: World, now: real, legs: seq<Leg>)
  {
    var avail := AvailFrom(w.drones, 0);
    var queue := Prioritized(w.tasks, now);
    |legs| == (if |queue| <= |avail| then |queue| else |avail|) && LegsOk(w.(tasks := queue), avail, legs)
  }

  /** One movement turn's call: the one a turn of `v` makes, answered as the planner promises. */
  ghost predicate HomeOk(v: DroneView, home: Option<Call>)
  {
    Answered(home) && HomeFor(v, home)
  }

  /** The recorded calls of the movement turns of drones `ds`, one per drone. */
  ghost predicate HomesOk(ds: seq<DroneView>, homes: seq<Option<Call>>)
    decreases |ds|
  {
    |homes| == |ds| &&
    (ds != [] ==>
      var k := |ds| - 1;
      HomesOk(ds[..k], homes[..k]) && HomeOk(ds[k], homes[k]))
  }

  lemma HomesOkNext(ds: seq<DroneView>, homes: seq<Option<Call>>, v: DroneView, home: Option<Call>)
    requires HomesOk(ds, homes) && HomeOk(v, home)
    ensures HomesOk(ds + [v], homes + [home])
  {
    assert (ds + [v])[..|ds|] == ds && (homes + [home])[..|homes|] == homes;
  }

  /** Drone k's turn made the call of its movement turn. */
  lemma {:induction false} HomesOkAt(ds: seq<DroneView>, homes: seq<Option<Call>>, k: nat)
    requires HomesOk(ds, homes) && k < |ds|
    ensures HomeOk(ds[k], homes[k])
  {
    if k < |ds| - 1 {
      HomesOkAt(ds[..|ds| - 1], homes[..|homes| - 1], k);
    }
  }

  /** The indices, from `i` on and in increasing order, of the available drones. */
  function AvailFrom(ds: seq<DroneView>, i: nat): (r: seq<nat>)
    requires i <= |ds|
    decreases |ds| - i
    ensures forall k :: 0 <= k < |r| ==> i <= r[k] < |ds| && Available(ds[r[k]])
    ensures forall j :: i <= j < |ds| && Available(ds[j]) ==> j in r
    ensures forall a, b :: 0 <= a < b < |r| ==> r[a] < r[b]
  {
    if i == |ds| then []
    else if Available(ds[i]) then [i] + AvailFrom(ds, i + 1)
    else AvailFrom(ds, i + 1)
  }

  /**
   * What dispatching `task` does to drone `v`: the leg to the hub anchor
   * (none on a hub cell), then the leg from where it ends to the target. When
   * the target leg is empty the task fails unless it starts at the end of a
   * non-empty hub leg that is the target: a start taken from the drone's own
   * cell is a list and never equals the target, a tuple. Otherwise the drone
   * gets the joined path, is DELIVERING the item, and the supply is offered to
   * its backend drone, whose answer is ignored.
   */
  function Assign(grid: array2<int>, v: DroneView, task: Task, leg: Leg): (DroneView, LogEvent)
    requires IsShape(grid)
    reads grid
  {
    var hub, target := Target(Hub), Target(task.target);
    var p1 := if InHub(grid, v.pos) then [] else Answer(leg.toHub, v.pos, hub);
    var startNode := if p1 != [] then p1[|p1| - 1] else v.pos;
    var p2 := Answer(leg.toTarget, startNode, target);
    if p2 == [] && (p1 == [] || startNode != target) then (v, PathFailed(task.target))
    else
      (v.(path := p1 + p2, status := Delivering(task.item), drone := B.Loaded(v.drone, B.Supply(task.item, task.weight))),
       Dispatched(v.id, task.target))
  }

  /** One turn of the dispatch loop: the first task goes to drone `d`. */
  function DispatchStep(grid: array2<int>, w: World, d: nat, leg: Leg): (r: World)
    requires IsShape(grid) && w.tasks != [] && d < |w.drones|
    reads grid
    ensures |r.drones| == |w.drones| && r.tasks == w.tasks[1..]
  {
    var (v, e) := Assign(grid, w.drones[d], w.tasks[0], leg);
    World(w.drones[d := v], w.tasks[1..], w.logs + [e])
  }

  /** The state after `n` turns of the dispatch loop, the k-th turn pairing task k with drone `avail[k]`. */
  function DispatchN(grid: array2<int>, w: World, avail: seq<nat>, legs: seq<Leg>, n: nat): (r: World)
    requires IsShape(grid) && n <= |w.tasks| && n <= |avail|
    requires forall k :: 0 <= k < |avail| ==> avail[k] < |w.drones|
    reads grid
    ensures |r.drones| == |w.drones| && r.tasks == w.tasks[n..]
  {
    if n == 0 then w
    else DispatchStep(grid, DispatchN(grid, w, avail, legs, n - 1), avail[n - 1], LegAt(legs, n - 1))
  }

  // ----- Movement -----

  /** The command text for a one-cell step (row change, column change). */
  function StepCommand(dy: int, dx: int): Option<string>
  {
    if (dy, dx) == (0, 1) then Some("right")
    else if (dy, dx) == (0, -1) then Some("left")
    else if (dy, dx) == (1, 0) then Some("down")
    else if (dy, dx) == (-1, 0) then Some("up")
    else None
  }

  /** The backend drone after being sent towards `next`: commanded and updated once if `next` is one cell away. */
  function FlyTowards(s: B.DroneState, next: Cell): B.DroneState
  {
    match StepCommand(next.0 - s.yposition, next.1 - s.xposition)
    case None => s
    case Some(cmd) => B.Step(s.(command := B.ParseCommand(B.TextArg(cmd))))
  }

  /**
   * One drone's turn of the movement loop: a drone with a path flies to its
   * next waypoint; otherwise a delivery or return completes, or an idle or
   * charging drone charges on the hub, or heads home when low off the hub.
   */
  function MoveStep(grid: array2<int>, v: DroneView, home: Option<Call>): (DroneView, seq<LogEvent>)
    requires IsShape(grid)
    reads grid
  {
    var inHub := InHub(grid, v.pos);
    var battery := v.drone.battery;
    if v.path != [] then
      var s := FlyTowards(v.drone, v.path[0]);
      (v.(path := v.path[1..], drone := s, pos := (s.yposition, s.xposition), bat := s.battery), [])
    else match v.status
      case Delivering(_) => (v.(status := Idle, drone := B.Unloaded(v.drone)), [Arrived(v.id)])
      case Returning => (v.(status := Idle), [ReturnedToBase(v.id)])
      case _ =>
        if inHub && battery < 100.0 then
          var charged := if battery + 2.0 < 100.0 then battery + 2.0 else 100.0;
          (v.(status := Charging, drone := v.drone.(battery := charged), bat := charged), [])
        else if inHub && battery >= 100.0 then (v.(status := Idle), [])
        else if !inHub && battery < 30.0 then
          (v.(path := Answer(home, v.pos, Target(Hub)), status := Returning), [BatteryLow(v.id)])
        else (v, [])
  }

  /** The drones, the log and the "any drone moved" flag after the first `n` turns of the movement loop. */
  function MoveN(grid: array2<int>, ds: seq<DroneView>, logs: seq<LogEvent>, homes: seq<Option<Call>>, n: nat)
    : (r: (seq<DroneView>, seq<LogEvent>, bool))
    requires IsShape(grid) && n <= |ds|
    reads grid
    ensures |r.0| == |ds|
  {
    if n == 0 then (ds, logs, false)
    else
      var (ds', logs', moving) := MoveN(grid, ds, logs, homes, n - 1);
      var (v, events) := MoveStep(grid, ds'[n - 1], HomeAt(homes, n - 1));
      (ds'[n - 1 := v], logs' + events, moving || ds'[n - 1].path != [])
  }

  // ----- One tick -----

  /** The state after the dispatch phase of a tick. */
  function AfterDispatch(grid: array2<int>, w: World, now: real, legs: seq<Leg>): (r: World)
    requires IsShape(grid)
    reads grid
    ensures |r.drones| == |w.drones|
  {
    var avail := AvailFrom(w.drones, 0);
    var w1 := w.(tasks := Prioritized(w.tasks, now));
    var n := if |w1.tasks| <= |avail| then |w1.tasks| else |avail|;
    DispatchN(grid, w1, avail, legs, n)
  }

  /** One call of `update_simulation`: the new state and whether any drone moved. */
  function Tick(grid: array2<int>, w: World, now: real, legs: seq<Leg>, homes: seq<Option<Call>>): (r: (World, bool))
    requires IsShape(grid)
    reads grid
    ensures |r.0.drones| == |w.drones|
  {
    var w2 := AfterDispatch(grid, w, now, legs);
    var (ds, logs, moving) := MoveN(grid, w2.drones, w2.logs, homes, |w2.drones|);
    (World(ds, w2.tasks, logs), moving)
  }

  // ----- The recorded calls only matter where they are used -----

  lemma {:induction false} DispatchNExtend(grid: array2<int>, w: World, avail: seq<nat>, legs: seq<Leg>, leg: Leg, n: nat)
    requires IsShape(grid) && n <= |w.tasks| && n <= |avail| && n <= |legs|
    requires forall k :: 0 <= k < |avail| ==> avail[k] < |w.drones|
    ensures DispatchN(grid, w, avail, legs + [leg], n) == DispatchN(grid, w, avail, legs, n)
  {
    if n > 0 {
      DispatchNExtend(grid, w, avail, legs, leg, n - 1);
      assert LegAt(legs + [leg], n - 1) == LegAt(legs, n - 1);
    }
  }

  /** The next dispatch turn uses the next recorded leg. */
  lemma DispatchNNext(grid: array2<int>, w: World, avail: seq<nat>, legs: seq<Leg>, leg: Leg, n: nat)
    requires IsShape(grid) && n < |w.tasks| && n < |avail| && n == |legs|
    requires forall k :: 0 <= k < |avail| ==> avail[k] < |w.drones|
    ensures DispatchN(grid, w, avail, legs + [leg], n + 1) == DispatchStep(grid, DispatchN(grid, w, avail, legs, n), avail[n], leg)
  {
    DispatchNExtend(grid, w, avail, legs, leg, n);
    assert LegAt(legs + [leg], n) == leg;
  }

  lemma {:induction false} MoveNExtend(grid: array2<int>, ds: seq<DroneView>, logs: seq<LogEvent>,
                                       homes: seq<Option<Call>>, home: Option<Call>, n: nat)
    requires IsShape(grid) && n <= |ds| && n <= |homes|
    ensures MoveN(grid, ds, logs, homes + [home], n) == MoveN(grid, ds, logs, homes, n)
  {
    if n > 0 {
      MoveNExtend(grid, ds, logs, homes, home, n - 1);
      assert HomeAt(homes + [home], n - 1) == HomeAt(homes, n - 1);
    }
  }

  /** Dispatch never moves a drone: after any number of turns every drone is on its cell. */
  lemma {:induction false} DispatchNPos(grid: array2<int>, w: World, avail: seq<nat>, legs: seq<Leg>, n: nat, j: nat)
    requires IsShape(grid) && n <= |w.tasks| && n <= |avail| && j < |w.drones|
    requires forall k :: 0 <= k < |avail| ==> avail[k] < |w.drones|
    ensures DispatchN(grid, w, avail, legs, n).drones[j].pos == w.drones[j].pos
  {
    if n > 0 {
      DispatchNPos(grid, w, avail, legs, n - 1, j);
    }
  }

  /** The first `n` movement turns leave the drones from `n` on as they were. */
  lemma {:induction false} MoveNLater(grid: array2<int>, ds: seq<DroneView>, logs: seq<LogEvent>, homes: seq<Option<Call>>, n: nat, j: nat)
    requires IsShape(grid) && n <= j < |ds|
    ensures MoveN(grid, ds, logs, homes, n).0[j] == ds[j]
  {
    if n > 0 {
      MoveNLater(grid, ds, logs, homes, n - 1, j);
    }
  }

  // ----- The session state -----

  /** A drone entry of the session: its id, its backend drone object, and the dispatcher's bookkeeping. */
  datatype DroneRec = DroneRec(id: string, obj: B.Drone, pos: Cell, bat: real, status: Status, path: seq<Cell>)

  function ViewOf(r: DroneRec): DroneView
    reads r.obj
  {
    DroneView(r.id, r.obj.State(), r.pos, r.bat, r.status, r.path)
  }

  /** Where the three drones start, as (row, column). */
  const DroneInit: seq<Cell> := [(1, 0), (2, 1), (1, 2)]

  const DroneIds: seq<string> := ["D1", "D2", "D3"]

  /** A fresh fleet drone: its backend drone placed on its start cell with a full battery. */
  function InitialDrone(k: nat): DroneView
    requires k < 3
  {
    var (r, c) := (DroneInit[k].0, DroneInit[k].1);
    DroneView(DroneIds[k], B.Initial(DroneIds[k]).(xposition := c, yposition := r, battery := 100.0),
              DroneInit[k], 100.0, Idle, [])
  }

  /** The session state right after initialisation: three idle drones, no tasks, an empty log. */
  function InitialWorld(): World
  {
    World([InitialDrone(0), InitialDrone(1), InitialDrone(2)], [], [])
  }

  /** A planner call, recorded with what it returned. */
  method Plan(grid: array2<int>, start: Cell, goal: Cell) returns (path: seq<Cell>, ghost c: Call)
    requires IsPlan(grid)
    ensures Planned(start, goal, path)
    ensures c == Call(start, goal, path) && Answered(Some(c))
  {
    path := FindPath(grid, start, goal);
    c := Call(start, goal, path);
    PlannedOnPlan(grid, start, goal, path);
  }

  /**
   * The route of a dispatch from `pos`: the leg to the hub anchor (none on a
   * hub cell), then the leg from where it ends to `target`.
   */
  method PlanDelivery(grid: array2<int>, pos: Cell, target: Cell) returns (p1: seq<Cell>, p2: seq<Cell>, startNode: Cell, ghost leg: Leg)
    requires IsPlan(grid)
    ensures Answered(leg.toHub) && Answered(leg.toTarget) && LegFor(pos, target, leg)
    ensures p1 == if InHub(grid, pos) then [] else Answer(leg.toHub, pos, Target(Hub))
    ensures startNode == if p1 != [] then p1[|p1| - 1] else pos
    ensures p2 == Answer(leg.toTarget, startNode, target)
  {
    p1 := [];
    ghost var toHub: Option<Call> := None;
    if !InHub(grid, pos) {
      ghost var c;
      p1, c := Plan(grid, pos, Target(Hub));
      toHub := Some(c);
    }
    startNode := if p1 != [] then p1[|p1| - 1] else pos;
    ghost var toTarget;
    p2, toTarget := Plan(grid, startNode, target);
    leg := Leg(toHub, Some(toTarget));
  }

  /** `Assign` in terms of the two legs of the route. */
  lemma AssignRoute(grid: array2<int>, v: DroneView, task: Task, leg: Leg, p1: seq<Cell>, p2: seq<Cell>, startNode: Cell)
    requires IsShape(grid)
    requires p1 == if InHub(grid, v.pos) then [] else Answer(leg.toHub, v.pos, Target(Hub))
    requires startNode == if p1 != [] then p1[|p1| - 1] else v.pos
    requires p2 == Answer(leg.toTarget, startNode, Target(task.target))
    ensures p2 == [] && (p1 == [] || startNode != Target(task.target)) ==> Assign(grid, v, task, leg) == (v, PathFailed(task.target))
    ensures !(p2 == [] && (p1 == [] || startNode != Target(task.target))) ==>
      Assign(grid, v, task, leg) ==
        (v.(path := p1 + p2, status := Delivering(task.item), drone := B.Loaded(v.drone, B.Supply(task.item, task.weight))),
         Dispatched(v.id, task.target))
  {
  }

  /**
   * Hands `task` to the drone of entry `r`: plans its route and, unless the
   * target cannot be reached, sets the route and the DELIVERING status and
   * offers the supply to the backend drone, ignoring whether it was accepted.
   */
  method AssignDrone(grid: array2<int>, r: DroneRec, task: Task) returns (r': DroneRec, e: LogEvent, ghost leg: Leg)
    requires IsPlan(grid)
    modifies r.obj
    ensures r'.obj == r.obj
    ensures Answered(leg.toHub) && Answered(leg.toTarget) && LegFor(r.pos, Target(task.target), leg)
    ensures (ViewOf(r'), e) == Assign(grid, old(ViewOf(r)), task, leg)
  {
    ghost var v := ViewOf(r);
    var target := Target(task.target);
    var p1, p2, startNode;
    p1, p2, startNode, leg := PlanDelivery(grid, r.pos, target);
    AssignRoute(grid, v, task, leg, p1, p2, startNode);
    if p2 == [] && (p1 == [] || startNode != target) {
      return r, PathFailed(task.target), leg;
    }
    ghost var supply := B.Supply(task.item, task.weight);
    r' := r.(path := p1 + p2, status := Delivering(task.item));
    var _ := r.obj.LoadSupply(B.Supply(task.item, task.weight));
    e := Dispatched(r.id, task.target);
    assert ViewOf(r') == v.(path := p1 + p2, status := Delivering(task.item), drone := B.Loaded(v.drone, supply));
  }

  /**
   * One movement turn for the drone of entry `r`: returns the new entry, the
   * events it logs, whether it flew, and the planner call made when it heads home.
   */
  method MoveRecord(grid: array2<int>, r: DroneRec) returns (r': DroneRec, events: seq<LogEvent>, moved: bool, ghost home: Option<Call>)
    requires IsPlan(grid)
    modifies r.obj
    ensures r'.obj == r.obj
    ensures Answered(home) && HomeFor(old(ViewOf(r)), home)
    ensures moved == (r.path != [])
    ensures (ViewOf(r'), events) == MoveStep(grid, old(ViewOf(r)), home)
  {
    home := None;
    events := [];
    var obj := r.obj;
    var inHub := InHub(grid, r.pos);
    moved := r.path != [];
    if moved {
      var next := r.path[0];
      var dy, dx := next.0 - obj.yposition, next.1 - obj.xposition;
      var cmd := StepCommand(dy, dx);
      if cmd.Some? {
        obj.SetCommand(B.TextArg(cmd.value));
        obj.Update();
      }
      return r.(path := r.path[1..], pos := (obj.yposition, obj.xposition), bat := obj.battery), events, moved, home;
    }
    r' := r;
    match r.status {
      case Delivering(_) =>
        r' := r.(status := Idle);
        obj.UnloadSupply();
        events := [Arrived(r.id)];
      case Returning =>
        r' := r.(status := Idle);
        events := [ReturnedToBase(r.id)];
      case _ =>
        if inHub && obj.battery < 100.0 {
          obj.battery := if obj.battery + 2.0 < 100.0 then obj.battery + 2.0 else 100.0;
          r' := r.(status := Charging, bat := obj.battery);
        } else if inHub && obj.battery >= 100.0 {
          r' := r.(status := Idle);
        } else if !inHub && obj.battery < 30.0 {
          var path, c := Plan(grid, r.pos, Target(Hub));
          home := Some(c);
          r' := r.(path := path, status := Returning);
          events := [BatteryLow(r.id)];
        }
    }
  }

  /** The backend drones behind a list of fleet records. */
  function ObjsOf(ds: seq<DroneRec>): (r: set<B.Drone>)
    ensures forall i :: 0 <= i < |ds| ==> ds[i].obj in r
  {
    set i | 0 <= i < |ds| :: ds[i].obj
  }

  /** Records over the same backend drones, index by index, cover the same set. */
  lemma ObjsOfSame(a: seq<DroneRec>, b: seq<DroneRec>)
    requires |a| == |b| && forall j :: 0 <= j < |a| ==> a[j].obj == b[j].obj
    ensures ObjsOf(a) == ObjsOf(b)
  {
  }

  /** The three fleet records of a new session, each over its own fresh backend drone. */
  method NewFleet() returns (ds: seq<DroneRec>)
    ensures |ds| == 3
    ensures forall k :: 0 <= k < 3 ==> ViewOf(ds[k]) == InitialDrone(k)
    ensures forall a, b :: 0 <= a < b < 3 ==> ds[a].obj != ds[b].obj
  {
    ds := [];
    for i := 0 to 3
      invariant |ds| == i
      invariant forall k :: 0 <= k < i ==> ds[k].obj.State() == InitialDrone(k).drone
      invariant forall k :: 0 <= k < i ==> ds[k] == DroneRec(DroneIds[k], ds[k].obj, DroneInit[k], 100.0, Idle, [])
      invariant forall a, b :: 0 <= a < b < i ==> ds[a].obj != ds[b].obj
    {
      var d := NewDrone(i);
      ds := ds + [DroneRec(DroneIds[i], d, DroneInit[i], 100.0, Idle, [])];
    }
  }

  /** The backend drone of fleet drone `k`, placed on its start cell with a full battery. */
  method NewDrone(k: nat) returns (d: B.Drone)
    requires k < 3
    ensures fresh(d) && d.State() == InitialDrone(k).drone
  {
    d := new B.Drone(DroneIds[k]);
    var (r, c) := (DroneInit[k].0, DroneInit[k].1);
    d.xposition := c;
    d.yposition := r;
    d.battery := 100.0;
  }

  /** The engine's session state, updated in place by each tick. */
  class Simulation {
    var grid: array2<int>
    var drones: seq<DroneRec>
    var tasks: seq<Task>
    var logs: seq<LogEvent>

    function Objs(): set<B.Drone>
      reads this
    {
      ObjsOf(drones)
    }

    /** The grid holds the floor plan and no two entries share a backend drone. */
    ghost predicate Valid()
      reads this, grid
    {
      IsPlan(grid) && forall i, j :: 0 <= i < j < |drones| ==> drones[i].obj != drones[j].obj
    }

    function Views(): seq<DroneView>
      reads this, Objs()
    {
      seq(|drones|, i requires 0 <= i < |drones| reads this, Objs() => ViewOf(drones[i]))
    }

    function State(): World
      reads this, Objs()
    {
      World(Views(), tasks, logs)
    }

    /** The session initialisation: the floor plan, no tasks, an empty log, and the three drones. */
    constructor()
      ensures Valid() && State() == InitialWorld()
    {
      var ds := NewFleet();
      var g := CreateFloorPlan();
      grid := g;
      drones := ds;
      tasks := [];
      logs := [];
    }

    /** One turn of the dispatch loop: the first task goes to drone `d`. */
    method DispatchNext(d: nat) returns (ghost leg: Leg)
      requires Valid() && tasks != [] && d < |drones|
      modifies this, drones[d].obj
      ensures Valid() && grid == old(grid) && |drones| == old(|drones|)
      ensures forall j :: 0 <= j < |drones| ==> drones[j].obj == old(drones[j].obj)
      ensures Answered(leg.toHub) && Answered(leg.toTarget)
      ensures LegFor(old(drones[d].pos), Target(old(tasks[0].target)), leg)
      ensures State() == DispatchStep(grid, old(State()), d, leg)
    {
      ghost var before := State();
      var r: DroneRec, event: LogEvent;
      r, event, leg := AssignDrone(grid, drones[d], tasks[0]);
      Commit(d, r, event, before, leg);
    }

    /** The bookkeeping of a dispatch turn: drone `d`'s new entry, the head task dropped, the event logged. */
    method Commit(d: nat, r: DroneRec, event: LogEvent, ghost before: World, ghost leg: Leg)
      requires Valid() && d < |drones| && |before.drones| == |drones| && r.obj == drones[d].obj
      requires before.tasks != [] && tasks == before.tasks && logs == before.logs
      requires forall j :: 0 <= j < |drones| && j != d ==> ViewOf(drones[j]) == before.drones[j]
      requires (ViewOf(r), event) == Assign(grid, before.drones[d], before.tasks[0], leg)
      modifies this
      ensures Valid() && grid == old(grid) && |drones| == old(|drones|)
      ensures forall j :: 0 <= j < |drones| ==> drones[j].obj == old(drones[j].obj)
      ensures State() == DispatchStep(grid, before, d, leg)
    {
      tasks := tasks[1..];
      drones := drones[d := r];
      logs := logs + [event];
    }

    /** One turn of the movement loop for drone `i`; returns whether it flew. */
    method MoveDrone(i: nat) returns (moved: bool, ghost home: Option<Call>)
      requires Valid() && i < |drones|
      modifies this, drones[i].obj
      ensures Valid() && grid == old(grid) && unchanged(grid) && |drones| == old(|drones|) && tasks == old(tasks)
      ensures forall j :: 0 <= j < |drones| ==> drones[j].obj == old(drones[j].obj)
      ensures Answered(home) && HomeFor(old(Views())[i], home)
      ensures moved == (old(Views())[i].path != [])
      ensures Views() == old(Views())[i := MoveStep(grid, old(Views())[i], home).0]
      ensures logs == old(logs) + MoveStep(grid, old(Views())[i], home).1
    {
      var r, events;
      r, events, moved, home := MoveRecord(grid, drones[i]);
      drones := drones[i := r];
      logs := logs + events;
    }

    /**
     * Submits tasks, one or a staged batch, at the back of the queue and puts
     * the whole queue back in priority order.
     */
    method Enqueue(batch: seq<Task>, now: real)
      modifies this
      ensures State() == old(State()).(tasks := Prioritized(old(tasks) + batch, now))
      ensures grid == old(grid) && drones == old(drones)
    {
      tasks := PrioritizePatients(tasks + batch, now);
    }

    /** Puts the task queue in priority order, when it is not empty. */
    method PrioritizeQueue(now: real)
      modifies this
      ensures State() == old(State()).(tasks := Prioritized(old(tasks), now))
      ensures grid == old(grid) && drones == old(drones)
    {
      if tasks != [] {
        tasks := PrioritizePatients(tasks, now);
      }
    }

    /**
     * The dispatch loop: while there are tasks and available drones left, the
     * first task goes to the first drone of `avail`.
     */
    method DispatchLoop(avail0: seq<nat>) returns (ghost legs: seq<Leg>)
      requires Valid() && forall k :: 0 <= k < |avail0| ==> avail0[k] < |drones|
      modifies this, Objs()
      ensures Valid() && grid == old(grid) && unchanged(grid) && |drones| == old(|drones|)
      ensures forall j :: 0 <= j < |drones| ==> drones[j].obj == old(drones[j].obj)
      ensures |legs| == (if |old(tasks)| <= |avail0| then |old(tasks)| else |avail0|) && LegsOk(old(State()), avail0, legs)
      ensures State() == DispatchN(grid, old(State()), avail0, legs, |legs|)
    {
      var avail := avail0;
      ghost var w1 := State();
      ghost var n := 0;
      legs := [];
      while tasks != [] && avail != []
        invariant Valid() && grid == old(grid) && unchanged(grid) && |drones| == old(|drones|) && |w1.drones| == |drones|
        invariant forall j :: 0 <= j < |drones| ==> drones[j].obj == old(drones[j].obj)
        invariant n <= |w1.tasks| && n <= |avail0| && tasks == w1.tasks[n..] && avail == avail0[n..] && |legs| == n
        invariant State() == DispatchN(grid, w1, avail0, legs, n)
        invariant LegsOk(w1, avail0, legs)
        invariant Objs() == old(Objs())
        decreases |tasks|
      {
        var d := avail[0];
        avail := avail[1..];
        ghost var ds := drones;
        var leg := DispatchTurn(w1, avail0, n, legs, d);
        ObjsOfSame(ds, drones);
        legs := legs + [leg];
        n := n + 1;
      }
      assert n == if |w1.tasks| <= |avail0| then |w1.tasks| else |avail0|;
    }

    /** The n-th turn of the dispatch loop, on drone `d`, the n-th available one. */
    method DispatchTurn(ghost w1: World, ghost avail0: seq<nat>, ghost n: nat, ghost legs: seq<Leg>, d: nat)
      returns (ghost leg: Leg)
      requires Valid() && |w1.drones| == |drones| && forall k :: 0 <= k < |avail0| ==> avail0[k] < |drones|
      requires n < |w1.tasks| && n < |avail0| && d == avail0[n] && tasks == w1.tasks[n..] && |legs| == n
      requires State() == DispatchN(grid, w1, avail0, legs, n)
      requires LegsOk(w1, avail0, legs)
      modifies this, Objs()
      ensures Valid() && grid == old(grid) && unchanged(grid) && |drones| == old(|drones|) && tasks == w1.tasks[n + 1..]
      ensures forall j :: 0 <= j < |drones| ==> drones[j].obj == old(drones[j].obj)
      ensures LegsOk(w1, avail0, legs + [leg])
      ensures State() == DispatchN(grid, w1, avail0, legs + [leg], n + 1)
    {
      ghost var before := State();
      DispatchNPos(grid, w1, avail0, legs, n, d);
      assert before.drones[d].pos == w1.drones[d].pos && tasks[0] == w1.tasks[n];
      leg := DispatchNext(d);
      assert State() == DispatchStep(grid, before, d, leg);
      DispatchNNext(grid, w1, avail0, legs, leg, n);
      assert TurnOk(w1.drones[d].pos, Target(w1.tasks[n].target), leg);
      LegsOkNext(w1, avail0, legs, leg);
    }

    /**
     * The dispatch phase of a tick: the available drones are taken before the
     * queue is prioritised, then the dispatch loop runs.
     */
    method DispatchPhase(now: real) returns (ghost legs: seq<Leg>)
      requires Valid()
      modifies this, Objs()
      ensures Valid() && grid == old(grid) && unchanged(grid) && |drones| == old(|drones|)
      ensures forall j :: 0 <= j < |drones| ==> drones[j].obj == old(drones[j].obj)
      ensures DispatchOk(old(State()), now, legs)
      ensures State() == AfterDispatch(grid, old(State()), now, legs)
    {
      var avail := AvailFrom(Views(), 0);
      PrioritizeQueue(now);
      legs := DispatchLoop(avail);
    }

    /** The movement phase of a tick: every drone in turn; returns whether any of them flew. */
    method MovePhase() returns (anyMoving: bool, ghost homes: seq<Option<Call>>)
      requires Valid()
      modifies this, Objs()
      ensures Valid() && grid == old(grid) && unchanged(grid) && |drones| == old(|drones|) && tasks == old(tasks)
      ensures forall j :: 0 <= j < |drones| ==> drones[j].obj == old(drones[j].obj)
      ensures HomesOk(old(Views()), homes)
      ensures (Views(), logs, anyMoving) == MoveN(grid, old(Views()), old(logs), homes, |drones|)
    {
      ghost var ds0, logs0 := Views(), logs;
      anyMoving := false;
      homes := [];
      for i := 0 to |drones|
        invariant Valid() && grid == old(grid) && unchanged(grid) && |drones| == old(|drones|) && tasks == old(tasks)
        invariant forall j :: 0 <= j < |drones| ==> drones[j].obj == old(drones[j].obj)
        invariant |homes| == i && |ds0| == |drones|
        invariant (Views(), logs, anyMoving) == MoveN(grid, ds0, logs0, homes, i)
        invariant HomesOk(ds0[..i], homes)
        invariant Objs() == old(Objs())
      {
        ghost var ds := drones;
        var moved, home := MoveTurn(ds0, logs0, homes, i, anyMoving);
        ObjsOfSame(ds, drones);
        if moved {
          anyMoving := true;
        }
        homes := homes + [home];
      }
      assert ds0[..|drones|] == ds0;
    }

    /** The i-th turn of the movement loop, with `flag` the moving flag so far. */
    method MoveTurn(ghost ds0: seq<DroneView>, ghost logs0: seq<LogEvent>, ghost homes: seq<Option<Call>>, i: nat, ghost flag: bool)
      returns (moved: bool, ghost home: Option<Call>)
      requires Valid() && i < |drones| && |ds0| == |drones| && |homes| == i
      requires (Views(), logs, flag) == MoveN(grid, ds0, logs0, homes, i)
      requires HomesOk(ds0[..i], homes)
      modifies this, Objs()
      ensures Valid() && grid == old(grid) && unchanged(grid) && |drones| == old(|drones|) && tasks == old(tasks)
      ensures forall j :: 0 <= j < |drones| ==> drones[j].obj == old(drones[j].obj)
      ensures HomesOk(ds0[..i + 1], homes + [home])
      ensures (Views(), logs, flag || moved) == MoveN(grid, ds0, logs0, homes + [home], i + 1)
    {
      ghost var before := (Views(), logs, flag);
      MoveNLater(grid, ds0, logs0, homes, i, i);
      moved, home := MoveDrone(i);
      MoveNExtend(grid, ds0, logs0, homes, home, i);
      assert HomeOk(ds0[i], home);
      HomesOkNext(ds0[..i], homes, ds0[i], home);
      assert ds0[..i + 1] == ds0[..i] + [ds0[i]];
      assert HomeAt(homes + [home], i) == home;
      assert MoveN(grid, ds0, logs0, homes + [home], i + 1) ==
        (before.0[i := MoveStep(grid, before.0[i], home).0], before.1 + MoveStep(grid, before.0[i], home).1,
         before.2 || before.0[i].path != []);
    }

    /**
     * One call of `update_simulation`: prioritise and dispatch, then move every
     * drone. Returns whether any drone flew, with the planner calls made.
     */
    method UpdateSimulation(now: real) returns (anyMoving: bool, ghost legs: seq<Leg>, ghost homes: seq<Option<Call>>)
      requires Valid()
      modifies this, Objs()
      ensures Valid() && grid == old(grid) && Objs() == old(Objs())
      ensures DispatchOk(old(State()), now, legs)
      ensures HomesOk(AfterDispatch(grid, old(State()), now, legs).drones, homes)
      ensures (State(), anyMoving) == Tick(grid, old(State()), now, legs, homes)
    {
      ghost var w0, ds0 := State(), drones;
      legs := DispatchPhase(now);
      ghost var w2, ds2 := State(), drones;
      assert w2 == AfterDispatch(grid, w0, now, legs);
      anyMoving, homes := MovePhase();
      ObjsOfSame(ds0, ds2);
      ObjsOfSame(ds2, drones);
      assert (Views(), logs, anyMoving) == MoveN(grid, w2.drones, w2.logs, homes, |w2.drones|);
      assert State() == World(Views(), w2.tasks, logs);
    }
  }
}
