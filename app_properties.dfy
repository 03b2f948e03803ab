/**
 * What one tick of the live simulation guarantees: which drones the dispatch
 * phase touches and with which task, what the movement phase does to each
 * drone, when the "any drone moved" flag is set, and the per-drone
 * consistency every tick keeps.
 */
module AppProperties {
  import opened Common
  import opened FloorPlan
  import opened Logic
  import opened App
  import B = Backend

  // ----- Dispatch -----

  predicate Distinct(avail: seq<nat>)
  {
    forall a, b :: 0 <= a < b < |avail| ==> avail[a] != avail[b]
  }

  /**
   * After `n` dispatch turns, drone `avail[k]` (k < n) holds what assigning
   * task k gives it, and every other drone is as before.
   */
  lemma {:induction false} DispatchNDrones(grid: array2<int>, w: World, avail: seq<nat>, legs: seq<Leg>, n: nat)
    requires IsShape(grid) && n <= |w.tasks| && n <= |avail|
    requires forall k :: 0 <= k < |avail| ==> avail[k] < |w.drones|
    requires Distinct(avail)
    ensures forall j :: 0 <= j < |w.drones| && j !in avail[..n] ==> DispatchN(grid, w, avail, legs, n).drones[j] == w.drones[j]
    ensures forall k :: 0 <= k < n ==>
      DispatchN(grid, w, avail, legs, n).drones[avail[k]] == Assign(grid, w.drones[avail[k]], w.tasks[k], LegAt(legs, k)).0
  {
    if n > 0 {
      DispatchNDrones(grid, w, avail, legs, n - 1);
      var p := DispatchN(grid, w, avail, legs, n - 1);
      var d := avail[n - 1];
      assert d !in avail[..n - 1];
      assert p.drones[d] == w.drones[d];
      assert p.tasks[0] == w.tasks[n - 1];
      forall j | 0 <= j < |w.drones| && j !in avail[..n]
        ensures DispatchN(grid, w, avail, legs, n).drones[j] == w.drones[j]
      {
        assert j !in avail[..n - 1] && j != d;
      }
      forall k | 0 <= k < n - 1
        ensures DispatchN(grid, w, avail, legs, n).drones[avail[k]] == p.drones[avail[k]]
      {
        assert avail[k] != d;
      }
    }
  }

  /** After `n` dispatch turns the log has gained exactly one line per turn, in turn order. */
  lemma {:induction false} DispatchNLogs(grid: array2<int>, w: World, avail: seq<nat>, legs: seq<Leg>, n: nat)
    requires IsShape(grid) && n <= |w.tasks| && n <= |avail|
    requires forall k :: 0 <= k < |avail| ==> avail[k] < |w.drones|
    requires Distinct(avail)
    ensures |DispatchN(grid, w, avail, legs, n).logs| == |w.logs| + n
    ensures DispatchN(grid, w, avail, legs, n).logs[..|w.logs|] == w.logs
    ensures forall k :: 0 <= k < n ==>
      DispatchN(grid, w, avail, legs, n).logs[|w.logs| + k] == Assign(grid, w.drones[avail[k]], w.tasks[k], LegAt(legs, k)).1
  {
    if n > 0 {
      DispatchNLogs(grid, w, avail, legs, n - 1);
      DispatchNDrones(grid, w, avail, legs, n - 1);
      var p := DispatchN(grid, w, avail, legs, n - 1);
      var d := avail[n - 1];
      assert d !in avail[..n - 1];
      assert p.drones[d] == w.drones[d];
      assert p.tasks[0] == w.tasks[n - 1];
      var r := DispatchN(grid, w, avail, legs, n);
      assert r.logs == p.logs + [Assign(grid, w.drones[d], w.tasks[n - 1], LegAt(legs, n - 1)).1];
    }
  }

  /**
   * The dispatch phase of a tick: with m the smaller of the queue length and
   * the number of available drones, the k-th available drone (k < m) receives
   * the k-th task of the prioritised queue, no other drone changes, the queue
   * keeps the prioritised tasks from m on, and the log gains exactly m lines.
   */
  lemma AfterDispatchClosed(grid: array2<int>, w: World, now: real, legs: seq<Leg>)
    requires IsShape(grid)
    ensures var avail := AvailFrom(w.drones, 0);
      var queue := Prioritized(w.tasks, now);
      var m := if |queue| <= |avail| then |queue| else |avail|;
      var r := AfterDispatch(grid, w, now, legs);
      r.tasks == queue[m..] &&
      (forall k :: 0 <= k < m ==> r.drones[avail[k]] == Assign(grid, w.drones[avail[k]], queue[k], LegAt(legs, k)).0) &&
      (forall j :: 0 <= j < |w.drones| && j !in avail[..m] ==> r.drones[j] == w.drones[j]) &&
      |r.logs| == |w.logs| + m && r.logs[..|w.logs|] == w.logs
  {
    var avail := AvailFrom(w.drones, 0);
    var w1 := w.(tasks := Prioritized(w.tasks, now));
    var m := if |w1.tasks| <= |avail| then |w1.tasks| else |avail|;
    DispatchNDrones(grid, w1, avail, legs, m);
    DispatchNLogs(grid, w1, avail, legs, m);
  }

  /** A drone that is not available (not IDLE, or at most 30 battery) is left alone by the dispatch phase. */
  lemma UnavailableNotDispatched(grid: array2<int>, w: World, now: real, legs: seq<Leg>, j: nat)
    requires IsShape(grid) && j < |w.drones| && !Available(w.drones[j])
    ensures AfterDispatch(grid, w, now, legs).drones[j] == w.drones[j]
  {
    AfterDispatchClosed(grid, w, now, legs);
    var avail := AvailFrom(w.drones, 0);
    assert j !in avail;
  }

  /**
   * A dispatch either fails and leaves the drone as it was, logging the path
   * failure, or gives it the whole route, the DELIVERING status and the
   * supply offered to its backend drone, logging the dispatch.
   */
  lemma AssignOutcome(grid: array2<int>, v: DroneView, task: Task, leg: Leg)
    requires IsShape(grid)
    ensures var (v', e) := Assign(grid, v, task, leg);
      (e == PathFailed(task.target) && v' == v) ||
      (e == Dispatched(v.id, task.target) && v'.status == Delivering(task.item) &&
       v'.drone == B.Loaded(v.drone, B.Supply(task.item, task.weight)) &&
       v'.id == v.id && v'.pos == v.pos && v'.bat == v.bat)
  {
  }

  /**
   * A task of 15 kg or more is still dispatched when a route exists: the drone
   * reports DELIVERING although its backend drone refused the load and keeps
   * its previous supply and multiplier.
   */
  lemma HeavyTaskFliesUnloaded(grid: array2<int>, v: DroneView, task: Task, leg: Leg)
    requires IsShape(grid) && task.weight >= 15.0
    requires Assign(grid, v, task, leg).1.Dispatched?
    ensures Assign(grid, v, task, leg).0.status == Delivering(task.item)
    ensures Assign(grid, v, task, leg).0.drone == v.drone
  {
    B.LoadRefused(v.drone, B.Supply(task.item, task.weight));
  }

  // ----- Movement -----

  /** After `n` movement turns, drones below `n` hold what their own turn gives them and the others are as before. */
  lemma {:induction false} MoveNDrones(grid: array2<int>, ds: seq<DroneView>, logs: seq<LogEvent>, homes: seq<Option<Call>>, n: nat)
    requires IsShape(grid) && n <= |ds|
    ensures forall j :: 0 <= j < n ==> MoveN(grid, ds, logs, homes, n).0[j] == MoveStep(grid, ds[j], HomeAt(homes, j)).0
    ensures forall j :: n <= j < |ds| ==> MoveN(grid, ds, logs, homes, n).0[j] == ds[j]
  {
    if n > 0 {
      MoveNDrones(grid, ds, logs, homes, n - 1);
    }
  }

  /** After `n` movement turns the flag says whether one of the first `n` drones had a path. */
  lemma {:induction false} MoveNFlag(grid: array2<int>, ds: seq<DroneView>, logs: seq<LogEvent>, homes: seq<Option<Call>>, n: nat)
    requires IsShape(grid) && n <= |ds|
    ensures MoveN(grid, ds, logs, homes, n).2 <==> exists j :: 0 <= j < n && ds[j].path != []
  {
    if n > 0 {
      MoveNFlag(grid, ds, logs, homes, n - 1);
      MoveNDrones(grid, ds, logs, homes, n - 1);
      var p := MoveN(grid, ds, logs, homes, n - 1);
      assert p.0[n - 1] == ds[n - 1];
      if MoveN(grid, ds, logs, homes, n).2 && !p.2 {
        assert ds[n - 1].path != [];
      }
    }
  }

  /** The movement phase only appends to the log. */
  lemma {:induction false} MoveNLogs(grid: array2<int>, ds: seq<DroneView>, logs: seq<LogEvent>, homes: seq<Option<Call>>, n: nat)
    requires IsShape(grid) && n <= |ds|
    ensures |MoveN(grid, ds, logs, homes, n).1| >= |logs| && MoveN(grid, ds, logs, homes, n).1[..|logs|] == logs
  {
    if n > 0 {
      MoveNLogs(grid, ds, logs, homes, n - 1);
      var p := MoveN(grid, ds, logs, homes, n - 1);
      var r := MoveN(grid, ds, logs, homes, n);
      assert r.1 == p.1 + MoveStep(grid, p.0[n - 1], HomeAt(homes, n - 1)).1;
      assert r.1[..|logs|] == p.1[..|logs|];
    }
  }

  /** A tick reports movement exactly when some drone has a path once the dispatch phase is over. */
  lemma TickMovingIff(grid: array2<int>, w: World, now: real, legs: seq<Leg>, homes: seq<Option<Call>>)
    requires IsShape(grid)
    ensures Tick(grid, w, now, legs, homes).1 <==>
      exists j :: 0 <= j < |w.drones| && AfterDispatch(grid, w, now, legs).drones[j].path != []
  {
    var w2 := AfterDispatch(grid, w, now, legs);
    MoveNFlag(grid, w2.drones, w2.logs, homes, |w2.drones|);
  }

  /** Every drone gets exactly one movement turn per tick, on its state after the dispatch phase. */
  lemma TickMovesEach(grid: array2<int>, w: World, now: real, legs: seq<Leg>, homes: seq<Option<Call>>, j: nat)
    requires IsShape(grid) && j < |w.drones|
    ensures Tick(grid, w, now, legs, homes).0.drones[j] == MoveStep(grid, AfterDispatch(grid, w, now, legs).drones[j], HomeAt(homes, j)).0
  {
    var w2 := AfterDispatch(grid, w, now, legs);
    MoveNDrones(grid, w2.drones, w2.logs, homes, |w2.drones|);
  }

  /**
   * A consistent IDLE drone off the hub with exactly 30 battery is stranded:
   * it is not available (the dispatcher wants more than 30), it is not low
   * (the return home wants less than 30), so a tick leaves it exactly as it was.
   */
  lemma StrandedAtThirty(grid: array2<int>, w: World, now: real, legs: seq<Leg>, homes: seq<Option<Call>>, j: nat)
    requires IsShape(grid) && j < |w.drones| && Consistent(grid, w.drones[j])
    requires w.drones[j].status == Idle && w.drones[j].drone.battery == 30.0
    requires !InHub(grid, w.drones[j].pos)
    ensures Tick(grid, w, now, legs, homes).0.drones[j] == w.drones[j]
  {
    UnavailableNotDispatched(grid, w, now, legs, j);
    TickMovesEach(grid, w, now, legs, homes, j);
  }

  // ----- Per-drone consistency -----

  /**
   * A drone entry agrees with its backend drone: its cell is in the grid and is
   * the backend drone's (row, column), its battery reading is the backend
   * drone's, the battery is at most full, the multiplier at least 1, its
   * path is a walk from its cell, and an IDLE or CHARGING drone has no path.
   */
  ghost predicate Consistent(grid: array2<int>, v: DroneView)
    requires IsShape(grid)
    reads grid
  {
    InGrid(v.pos.0, v.pos.1) && v.drone.yposition == v.pos.0 && v.drone.xposition == v.pos.1 &&
    v.bat == v.drone.battery && v.drone.battery <= 100.0 && v.drone.multiplier >= 1.0 &&
    Walk(grid, v.pos, v.path) && ((v.status == Idle || v.status == Charging) ==> v.path == [])
  }

  ghost predicate AllConsistent(grid: array2<int>, ds: seq<DroneView>)
    requires IsShape(grid)
    reads grid
  {
    forall j :: 0 <= j < |ds| ==> Consistent(grid, ds[j])
  }

  /** The three drones start consistent, each on a hub cell. */
  lemma InitialConsistent(grid: array2<int>)
    requires IsPlan(grid)
    ensures AllConsistent(grid, InitialWorld().drones)
    ensures forall j :: 0 <= j < 3 ==> InHub(grid, InitialWorld().drones[j].pos)
  {
    assert grid[1, 0] == CellKind(1, 0) && grid[2, 1] == CellKind(2, 1) && grid[1, 2] == CellKind(1, 2);
  }

  /** Sending the backend drone to an adjacent in-grid cell moves it there and drains 0.5 times its multiplier. */
  lemma FlyToNeighbour(s: B.DroneState, next: Cell)
    requires Adjacent((s.yposition, s.xposition), next) && InGrid(next.0, next.1)
    ensures FlyTowards(s, next) == s.(command := FlyTowards(s, next).command,
                                      yposition := next.0, xposition := next.1, battery := s.battery - 0.5 * s.multiplier)
  {
    var dy, dx := next.0 - s.yposition, next.1 - s.xposition;
    if (dy, dx) == (0, 1) {
      B.LowerName(B.Right);
      B.ParseText("right", B.Right);
    } else if (dy, dx) == (0, -1) {
      B.LowerName(B.Left);
      B.ParseText("left", B.Left);
    } else if (dy, dx) == (1, 0) {
      B.LowerName(B.Down);
      B.ParseText("down", B.Down);
    } else {
      B.LowerName(B.Up);
      B.ParseText("up", B.Up);
    }
  }

  /**
   * A consistent drone with a path flies to its first waypoint: the waypoint
   * becomes its cell, it is dropped from the path, the battery drains 0.5
   * times the multiplier, the status stays, and nothing is logged.
   */
  lemma InFlightStep(grid: array2<int>, v: DroneView, home: Option<Call>)
    requires IsShape(grid) && Consistent(grid, v) && v.path != []
    ensures MoveStep(grid, v, home).0.pos == v.path[0]
    ensures MoveStep(grid, v, home).0.path == v.path[1..]
    ensures MoveStep(grid, v, home).0.drone.battery == v.drone.battery - 0.5 * v.drone.multiplier
    ensures MoveStep(grid, v, home).0.status == v.status
    ensures MoveStep(grid, v, home).1 == []
  {
    assert Adjacent(Before(v.pos, v.path, 0), v.path[0]) && IsWalkable(grid, v.path[0].0, v.path[0].1);
    FlyToNeighbour(v.drone, v.path[0]);
  }

  /**
   * A consistent IDLE or CHARGING drone on a hub cell below full charge
   * gains 2 battery, capped at 100, and is CHARGING.
   */
  lemma ChargeOnHub(grid: array2<int>, v: DroneView, home: Option<Call>)
    requires IsShape(grid) && Consistent(grid, v) && (v.status == Idle || v.status == Charging)
    requires InHub(grid, v.pos) && v.drone.battery < 100.0
    ensures MoveStep(grid, v, home).0.status == Charging
    ensures MoveStep(grid, v, home).0.drone.battery == if v.drone.battery + 2.0 < 100.0 then v.drone.battery + 2.0 else 100.0
    ensures MoveStep(grid, v, home).0.drone.battery > v.drone.battery
  {
  }

  /**
   * A consistent IDLE drone off the hub below 30 battery turns RETURNING on
   * the planner's path home and logs the low battery.
   */
  lemma LowBatteryReturns(grid: array2<int>, v: DroneView, home: Option<Call>)
    requires IsShape(grid) && Consistent(grid, v) && v.status == Idle
    requires !InHub(grid, v.pos) && v.drone.battery < 30.0
    ensures MoveStep(grid, v, home).0 == v.(status := Returning, path := Answer(home, v.pos, Target(Hub)))
    ensures MoveStep(grid, v, home).1 == [BatteryLow(v.id)]
  {
  }

  /** A movement turn keeps a drone consistent, given a planner that keeps its contract. */
  lemma MoveStepConsistent(grid: array2<int>, v: DroneView, home: Option<Call>)
    requires IsPlan(grid) && Consistent(grid, v) && Answered(home)
    ensures Consistent(grid, MoveStep(grid, v, home).0)
  {
    if v.path == [] {
      PlanWalkIff(grid, v.pos, Answer(home, v.pos, Target(Hub)));
    } else {
      InFlightStep(grid, v, home);
      var v' := MoveStep(grid, v, home).0;
      assert IsWalkable(grid, v.path[0].0, v.path[0].1);
      forall i | 0 <= i < |v'.path|
        ensures Adjacent(Before(v'.pos, v'.path, i), v'.path[i]) && IsWalkable(grid, v'.path[i].0, v'.path[i].1)
      {
        assert Before(v'.pos, v'.path, i) == Before(v.pos, v.path, i + 1);
      }
    }
  }

  /** Loading keeps the backend drone's cell and battery and a multiplier of at least 1. */
  lemma LoadKeepsPlace(s: B.DroneState, supply: B.Supply)
    requires s.multiplier >= 1.0
    ensures var t := B.Loaded(s, supply);
      t.xposition == s.xposition && t.yposition == s.yposition && t.battery == s.battery && t.multiplier >= 1.0
  {
  }

  /**
   * The route a dispatch plans is a walk from the drone's cell, ending at
   * the target when the leg to the target is not empty, given a planner that
   * keeps its contract.
   */
  lemma RouteWalk(grid: array2<int>, pos: Cell, leg: Leg, target: Cell, p1: seq<Cell>, p2: seq<Cell>, startNode: Cell)
    requires IsPlan(grid) && Answered(leg.toHub) && Answered(leg.toTarget)
    requires p1 == if InHub(grid, pos) then [] else Answer(leg.toHub, pos, Target(Hub))
    requires startNode == if p1 != [] then p1[|p1| - 1] else pos
    requires p2 == Answer(leg.toTarget, startNode, target)
    ensures Walk(grid, pos, p1 + p2) && End(pos, p1) == startNode
    ensures p2 != [] ==> End(pos, p1 + p2) == target
  {
    PlanWalkIff(grid, pos, p1);
    PlanWalkIff(grid, startNode, p2);
    WalkAppend(grid, pos, p1, p2);
  }

  /** A dispatch keeps a drone consistent, given a planner that keeps its contract. */
  lemma AssignConsistent(grid: array2<int>, v: DroneView, task: Task, leg: Leg)
    requires IsPlan(grid) && Consistent(grid, v)
    requires Answered(leg.toHub) && Answered(leg.toTarget)
    ensures Consistent(grid, Assign(grid, v, task, leg).0)
  {
    var p1 := if InHub(grid, v.pos) then [] else Answer(leg.toHub, v.pos, Target(Hub));
    var startNode := if p1 != [] then p1[|p1| - 1] else v.pos;
    var p2 := Answer(leg.toTarget, startNode, Target(task.target));
    AssignRoute(grid, v, task, leg, p1, p2, startNode);
    RouteWalk(grid, v.pos, leg, Target(task.target), p1, p2, startNode);
    LoadKeepsPlace(v.drone, B.Supply(task.item, task.weight));
  }

  lemma {:induction false} DispatchNConsistent(grid: array2<int>, w: World, avail: seq<nat>, legs: seq<Leg>, n: nat)
    requires IsPlan(grid) && n <= |w.tasks| && n <= |avail|
    requires forall k :: 0 <= k < |avail| ==> avail[k] < |w.drones|
    requires AllConsistent(grid, w.drones)
    requires forall k :: 0 <= k < |legs| ==> Answered(legs[k].toHub) && Answered(legs[k].toTarget)
    ensures AllConsistent(grid, DispatchN(grid, w, avail, legs, n).drones)
  {
    if n > 0 {
      DispatchNConsistent(grid, w, avail, legs, n - 1);
      var p := DispatchN(grid, w, avail, legs, n - 1);
      AssignConsistent(grid, p.drones[avail[n - 1]], p.tasks[0], LegAt(legs, n - 1));
    }
  }

  lemma {:induction false} MoveNConsistent(grid: array2<int>, ds: seq<DroneView>, logs: seq<LogEvent>, homes: seq<Option<Call>>, n: nat)
    requires IsPlan(grid) && n <= |ds| && AllConsistent(grid, ds)
    requires forall k :: 0 <= k < |homes| ==> Answered(homes[k])
    ensures AllConsistent(grid, MoveN(grid, ds, logs, homes, n).0)
  {
    if n > 0 {
      MoveNConsistent(grid, ds, logs, homes, n - 1);
      var p := MoveN(grid, ds, logs, homes, n - 1);
      MoveStepConsistent(grid, p.0[n - 1], HomeAt(homes, n - 1));
    }
  }

  /**
   * A tick keeps every drone consistent, given the planner calls the tick
   * makes: the cell, the coordinates and the battery reading keep agreeing,
   * the battery never exceeds 100, every path stays flyable, and an IDLE or
   * CHARGING drone never keeps a path.
   */
  lemma TickConsistent(grid: array2<int>, w: World, now: real, legs: seq<Leg>, homes: seq<Option<Call>>)
    requires IsPlan(grid) && AllConsistent(grid, w.drones) && DispatchOk(w, now, legs)
    requires HomesOk(AfterDispatch(grid, w, now, legs).drones, homes)
    ensures AllConsistent(grid, Tick(grid, w, now, legs, homes).0.drones)
  {
    var avail := AvailFrom(w.drones, 0);
    var w1 := w.(tasks := Prioritized(w.tasks, now));
    var m := if |w1.tasks| <= |avail| then |w1.tasks| else |avail|;
    forall k | 0 <= k < |legs|
      ensures Answered(legs[k].toHub) && Answered(legs[k].toTarget)
    {
      LegsOkAt(w1, avail, legs, k);
    }
    DispatchNConsistent(grid, w1, avail, legs, m);
    var w2 := AfterDispatch(grid, w, now, legs);
    forall k | 0 <= k < |homes|
      ensures Answered(homes[k])
    {
      HomesOkAt(w2.drones, homes, k);
    }
    MoveNConsistent(grid, w2.drones, w2.logs, homes, |w2.drones|);
  }

  // ----- Deliveries -----

  /** No department but the hub has its anchor on a hub cell. */
  lemma AnchorOffHub(grid: array2<int>, d: Department)
    requires IsPlan(grid) && d != Hub
    ensures !InHub(grid, Target(d)) && Target(d) != Target(Hub)
  {
    AnchorInOwnRoom(grid, d);
  }

  /**
   * A drone on a hub cell, or one that can reach the hub, is never refused a
   * task for another department: the planner's legs join into a route from
   * its cell that ends at the target, and the dispatch is logged.
   */
  lemma AssignDelivers(grid: array2<int>, v: DroneView, task: Task, leg: Leg)
    requires IsPlan(grid) && InGrid(v.pos.0, v.pos.1) && task.target != Hub
    requires TurnOk(v.pos, Target(task.target), leg)
    requires InHub(grid, v.pos) || Reachable(grid, v.pos, Target(Hub))
    ensures Assign(grid, v, task, leg).1 == Dispatched(v.id, task.target)
    ensures var path := Assign(grid, v, task, leg).0.path;
      path != [] && Walk(grid, v.pos, path) && End(v.pos, path) == Target(task.target)
  {
    var hub, target := Target(Hub), Target(task.target);
    InHubOnPlan(grid, v.pos);
    AnchorOffHub(grid, task.target);
    AnchorsReachable(grid, task.target);
    PlanReachableIff(grid, hub, target);
    var p1 := if InHub(grid, v.pos) then [] else Answer(leg.toHub, v.pos, hub);
    var startNode := if p1 != [] then p1[|p1| - 1] else v.pos;
    var p2 := Answer(leg.toTarget, startNode, target);
    if InHub(grid, v.pos) {
      HubCellReachesAnchor(grid, v.pos);
      ReachableTrans(grid, v.pos, hub, target);
      PlanReachableIff(grid, v.pos, target);
    } else {
      InHubOnPlan(grid, hub);
      AnchorInOwnRoom(grid, Hub);
      PlanReachableIff(grid, v.pos, hub);
      assert p1 != [];
    }
    assert p2 != [];
    RouteWalk(grid, v.pos, leg, target, p1, p2, startNode);
  }

  /**
   * A drone on the hub's anchor cell is refused a task for the hub itself:
   * both legs are empty, so the dispatch fails and the drone is unchanged.
   */
  lemma HubAnchorRefusesHub(grid: array2<int>, v: DroneView, task: Task, leg: Leg)
    requires IsPlan(grid) && v.pos == Target(Hub) && task.target == Hub
    requires TurnOk(v.pos, Target(Hub), leg)
    ensures Assign(grid, v, task, leg) == (v, PathFailed(Hub))
  {
    AnchorInOwnRoom(grid, Hub);
  }

  /**
   * In a tick's dispatch phase, the k-th available drone is sent to the k-th
   * task of the prioritised queue whenever that task is not for the hub and
   * the drone is on a hub cell or can reach the hub: the k-th new log line is
   * its dispatch, and it is DELIVERING on a route that ends at the target.
   */
  lemma DispatchDelivers(grid: array2<int>, w: World, now: real, legs: seq<Leg>, avail: seq<nat>, queue: seq<Task>, k: nat)
    requires IsPlan(grid) && avail == AvailFrom(w.drones, 0) && queue == Prioritized(w.tasks, now)
    requires DispatchOk(w, now, legs) && k < |legs|
    requires k < |avail| && k < |queue| && queue[k].target != Hub
    requires InGrid(w.drones[avail[k]].pos.0, w.drones[avail[k]].pos.1)
    requires InHub(grid, w.drones[avail[k]].pos) || Reachable(grid, w.drones[avail[k]].pos, Target(Hub))
    ensures var r := AfterDispatch(grid, w, now, legs);
      |w.logs| + k < |r.logs| && r.logs[|w.logs| + k] == Dispatched(w.drones[avail[k]].id, queue[k].target) &&
      r.drones[avail[k]].status == Delivering(queue[k].item) &&
      End(w.drones[avail[k]].pos, r.drones[avail[k]].path) == Target(queue[k].target)
  {
    LegsOkAt(w.(tasks := queue), avail, legs, k);
    AssignDelivers(grid, w.drones[avail[k]], queue[k], legs[k]);
    AfterDispatchTurn(grid, w, now, legs, avail, queue, k);
  }

  /** The k-th turn of a tick's dispatch phase writes the k-th new log line and sets drone `avail[k]`. */
  lemma AfterDispatchTurn(grid: array2<int>, w: World, now: real, legs: seq<Leg>, avail: seq<nat>, queue: seq<Task>, k: nat)
    requires IsShape(grid) && avail == AvailFrom(w.drones, 0) && queue == Prioritized(w.tasks, now)
    requires k < |legs| && k < |avail| && k < |queue|
    ensures var r, e := AfterDispatch(grid, w, now, legs), Assign(grid, w.drones[avail[k]], queue[k], legs[k]);
      |w.logs| + k < |r.logs| && r.logs[|w.logs| + k] == e.1 && r.drones[avail[k]] == e.0
  {
    var w1 := w.(tasks := queue);
    var m := if |queue| <= |avail| then |queue| else |avail|;
    assert AfterDispatch(grid, w, now, legs) == DispatchN(grid, w1, avail, legs, m);
    assert Distinct(avail);
    DispatchNTurn(grid, w1, avail, legs, m, k, w.drones[avail[k]], queue[k]);
  }

  /** Turn k of the first n dispatch turns writes log line k and gives drone `avail[k]` its dispatch. */
  lemma DispatchNTurn(grid: array2<int>, w: World, avail: seq<nat>, legs: seq<Leg>, n: nat, k: nat, v: DroneView, task: Task)
    requires IsShape(grid) && n <= |w.tasks| && n <= |avail| && k < n && k < |legs|
    requires forall j :: 0 <= j < |avail| ==> avail[j] < |w.drones|
    requires Distinct(avail) && v == w.drones[avail[k]] && task == w.tasks[k]
    ensures var r, e := DispatchN(grid, w, avail, legs, n), Assign(grid, v, task, legs[k]);
      |w.logs| + k < |r.logs| && r.logs[|w.logs| + k] == e.1 && r.drones[avail[k]] == e.0
  {
    DispatchNLogs(grid, w, avail, legs, n);
    DispatchNDrones(grid, w, avail, legs, n);
    assert LegAt(legs, k) == legs[k];
  }

  // ----- Weight classes -----

  /**
   * The weight classes offered when a task is submitted: class 1 to 6 stand
   * for 0.4, 1.5, 3.5, 10, 30 and 60 kg.
   */
  function ClassWeight(c: int): (w: Option<real>)
    ensures w.Some? <==> 1 <= c <= 6
    ensures w.Some? ==> w.value > 0.0
  {
    if c == 1 then Some(0.4)
    else if c == 2 then Some(1.5)
    else if c == 3 then Some(3.5)
    else if c == 4 then Some(10.0)
    else if c == 5 then Some(30.0)
    else if c == 6 then Some(60.0)
    else None
  }

  /**
   * The backend drone accepts classes 1 to 4, with multipliers 1.0, 1.2, 1.5
   * and 2.0, and refuses classes 5 and 6; so the two heaviest classes that can
   * be submitted are always dispatched unloaded.
   */
  lemma ClassMultipliers(c: int)
    requires 1 <= c <= 6
    ensures B.WeightToMultiplier(ClassWeight(c).value) == [Some(1.0), Some(1.2), Some(1.5), Some(2.0), None, None][c - 1]
    ensures B.WeightToMultiplier(ClassWeight(c).value).None? <==> c >= 5
  {
  }
}
