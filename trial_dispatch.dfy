/**
 * The trial simulation's dispatcher: a queue of tasks, each a supply for the
 * centre of a region; every round offers each task in turn to the first
 * drone that waits on its hub with charge for the whole round trip along the
 * shortest route from the hub, and keeps the tasks no drone took.
 */
module TrialDispatch {
  import opened Common
  import opened TrialPlan
  import opened TrialFleet

  /** A supply to carry to the centre of a region. */
  datatype Task = Task(region: Region, supply: Supply)

  /** Every task's supply is one a drone can lift. */
  predicate Light(tasks: seq<Task>)
  {
    forall k :: 0 <= k < |tasks| ==> tasks[k].supply.weight < 15.0
  }

  /** The charge `try_assign` asks for `task` along `path`: out under the load's multiplier and back. */
  function Needed(task: Task, path: seq<Pos>): real
    requires task.supply.weight < 15.0
  {
    Required(|path| - 1, WeightToMultiplier(task.supply.weight).value)
  }

  /** The test `try_assign` puts to a drone: idle, on its hub, with at least `required` charge. */
  predicate Ready(s: DroneState, required: real)
  {
    s.mode == Idle && AtHub(s) && s.battery >= required
  }

  /** The drone `try_assign` picks: the first ready one, if there is one. */
  function FirstReady(views: seq<DroneState>, required: real): (r: Option<nat>)
    ensures r.Some? ==> r.value < |views| && Ready(views[r.value], required)
    ensures r.Some? ==> forall j :: 0 <= j < r.value ==> !Ready(views[j], required)
    ensures r.None? ==> forall j :: 0 <= j < |views| ==> !Ready(views[j], required)
  {
    if views == [] then None
    else if Ready(views[0], required) then Some(0)
    else match FirstReady(views[1..], required)
      case None => None
      case Some(k) => Some(k + 1)
  }

  /** One `try_assign` on the drones' states, along `path`. */
  function Offer(views: seq<DroneState>, task: Task, path: seq<Pos>): (seq<DroneState>, bool)
    requires task.supply.weight < 15.0
  {
    match FirstReady(views, Needed(task, path))
    case None => (views, false)
    case Some(i) => (views[i := Launch(views[i], task.region, path, task.supply).0], true)
  }

  /**
   * A task is taken exactly when some drone is ready for it; the taker is the
   * first ready drone, which sets off outbound from index 0 of the route with
   * the task's supply and region; every other drone is left as it was.
   */
  lemma OfferTakesFirstReady(views: seq<DroneState>, task: Task, path: seq<Pos>)
    requires task.supply.weight < 15.0
    ensures var (after, ok) := Offer(views, task, path);
      |after| == |views| &&
      (ok <==> exists i :: 0 <= i < |views| && Ready(views[i], Needed(task, path))) &&
      (!ok ==> after == views)
    ensures var (after, ok) := Offer(views, task, path);
      ok ==> var i := FirstReady(views, Needed(task, path)).value;
        (forall j :: 0 <= j < i ==> !Ready(views[j], Needed(task, path))) &&
        after[i] == views[i].(supply := Some(task.supply), multiplier := WeightToMultiplier(task.supply.weight).value,
                              currentRegion := Some(task.region), path := Some(path), pathIndex := Some(0), mode := Outbound) &&
        forall j :: 0 <= j < |views| && j != i ==> after[j] == views[j]
  {
  }

  /** Taking a task keeps every drone's state well formed, provided the route is not empty. */
  lemma OfferKeepsWellFormed(views: seq<DroneState>, task: Task, path: seq<Pos>)
    requires task.supply.weight < 15.0 && path != []
    requires forall j :: 0 <= j < |views| ==> WellFormed(views[j])
    ensures var after := Offer(views, task, path).0;
      forall j :: 0 <= j < |after| ==> WellFormed(after[j])
  {
  }

  /**
   * One dispatcher `update` over the drones' states: the tasks are offered in
   * queue order, task k along `paths[k]`; the result is the new drone states
   * and the tasks no drone took.
   */
  function Round(views: seq<DroneState>, tasks: seq<Task>, paths: seq<seq<Pos>>): (seq<DroneState>, seq<Task>)
    requires |paths| == |tasks| && Light(tasks)
    decreases |tasks|
  {
    if tasks == [] then (views, [])
    else
      var n := |tasks| - 1;
      var (v, rest) := Round(views, tasks[..n], paths[..n]);
      var (v2, ok) := Offer(v, tasks[n], paths[n]);
      (v2, if ok then rest else rest + [tasks[n]])
  }

  /** `a` is `b` with some elements dropped. */
  ghost predicate Subsequence<T>(a: seq<T>, b: seq<T>)
    decreases |b|
  {
    a == [] ||
    (b != [] &&
     ((a[|a| - 1] == b[|b| - 1] && Subsequence(a[..|a| - 1], b[..|b| - 1])) || Subsequence(a, b[..|b| - 1])))
  }

  /** The tasks a round leaves in the queue keep their queue order. */
  lemma {:induction false} RoundKeepsOrder(views: seq<DroneState>, tasks: seq<Task>, paths: seq<seq<Pos>>)
    requires |paths| == |tasks| && Light(tasks)
    ensures Subsequence(Round(views, tasks, paths).1, tasks)
    ensures |Round(views, tasks, paths).0| == |views|
    decreases |tasks|
  {
    if tasks != [] {
      var n := |tasks| - 1;
      RoundKeepsOrder(views, tasks[..n], paths[..n]);
      var (v, rest) := Round(views, tasks[..n], paths[..n]);
      OfferTakesFirstReady(v, tasks[n], paths[n]);
      if !Offer(v, tasks[n], paths[n]).1 {
        assert (rest + [tasks[n]])[..|rest|] == rest;
      } else {
        SubsequenceOfLonger(rest, tasks[..n], tasks[n]);
      }
    }
  }

  lemma {:induction false} SubsequenceOfLonger<T>(a: seq<T>, b: seq<T>, x: T)
    requires Subsequence(a, b)
    ensures Subsequence(a, b + [x])
  {
    assert (b + [x])[..|b|] == b;
  }

  /** The number of idle drones. */
  function CountIdle(views: seq<DroneState>): (n: nat)
    ensures n <= |views|
  {
    if views == [] then 0 else (if views[0].mode == Idle then 1 else 0) + CountIdle(views[1..])
  }

  /** Sending one idle drone off leaves one idle drone fewer. */
  lemma {:induction false} CountIdleLaunch(views: seq<DroneState>, i: nat, s: DroneState)
    requires i < |views| && views[i].mode == Idle && s.mode != Idle
    ensures CountIdle(views[i := s]) == CountIdle(views) - 1
  {
    if i == 0 {
      assert views[i := s][1..] == views[1..];
    } else {
      CountIdleLaunch(views[1..], i - 1, s);
      assert views[i := s][1..] == views[1..][i - 1 := s];
    }
  }

  /**
   * Each task a round hands out takes an idle drone off the hub queue: the
   * idle drones after the round plus the tasks taken make the idle drones
   * before it, so a round never hands out more tasks than there were idle
   * drones.
   */
  lemma {:induction false} RoundUsesIdleDrones(views: seq<DroneState>, tasks: seq<Task>, paths: seq<seq<Pos>>)
    requires |paths| == |tasks| && Light(tasks)
    ensures var (after, rest) := Round(views, tasks, paths);
      CountIdle(after) + (|tasks| - |rest|) == CountIdle(views)
    decreases |tasks|
  {
    if tasks != [] {
      var n := |tasks| - 1;
      RoundUsesIdleDrones(views, tasks[..n], paths[..n]);
      var (v, rest) := Round(views, tasks[..n], paths[..n]);
      match FirstReady(v, Needed(tasks[n], paths[n]))
      case None =>
      case Some(i) =>
        CountIdleLaunch(v, i, Launch(v[i], tasks[n].region, paths[n], tasks[n].supply).0);
    }
  }

  /**
   * The battery check covers the round trip. When a task is taken by a drone
   * whose hub is where the route starts, 2n+1 updates later (n the route's
   * moves) the drone is back on its hub, unloaded, with exactly the charge
   * `try_assign` asked for spent, which leaves it a charge of at least zero.
   */
  lemma {:induction false} DispatchCoversRoundTrip(views: seq<DroneState>, task: Task, path: seq<Pos>)
    requires task.supply.weight < 15.0 && path != [] && Offer(views, task, path).1
    requires var i := FirstReady(views, Needed(task, path)).value;
      WellFormed(views[i]) && path[0] == (views[i].homeX, views[i].homeY)
    ensures var i := FirstReady(views, Needed(task, path)).value;
      var u := Steps(Offer(views, task, path).0[i], 2 * (|path| - 1) + 1);
      u.mode == Returning && AtHub(u) && u.supply.None? &&
      u.battery == views[i].battery - Needed(task, path) && u.battery >= 0.0
  {
    var i := FirstReady(views, Needed(task, path)).value;
    RoundTrip(views[i], task.region, path, task.supply);
  }

  /** The dispatcher, holding the floor plan, its drones and the task queue. */
  class Dispatcher {
    const floor: array2<Kind>
    const drones: seq<Drone>
    const hub: Pos
    var tasks: seq<Task>

    function Objs(): set<Drone>
    {
      set i | 0 <= i < |drones| :: drones[i]
    }

    function Views(): seq<DroneState>
      reads Objs()
    {
      seq(|drones|, i requires 0 <= i < |drones| reads Objs() => drones[i].State())
    }

    /** The floor is the hospital plan, the hub its hub centre; the drones are distinct and well formed. */
    ghost predicate Valid()
      reads floor, Objs()
    {
      IsPlan(floor) && hub == Center(Hub) &&
      (forall i, j :: 0 <= i < j < |drones| ==> drones[i] != drones[j]) &&
      forall i :: 0 <= i < |drones| ==> WellFormed(drones[i].State())
    }

    constructor(floor: array2<Kind>, drones: seq<Drone>)
      requires IsPlan(floor)
      requires forall i, j :: 0 <= i < j < |drones| ==> drones[i] != drones[j]
      requires forall i :: 0 <= i < |drones| ==> WellFormed(drones[i].State())
      ensures Valid() && this.floor == floor && this.drones == drones && tasks == []
    {
      this.floor := floor;
      this.drones := drones;
      tasks := [];
      hub := Center(Hub);
    }

    method AddTask(task: Task)
      modifies this
      ensures tasks == old(tasks) + [task]
    {
      tasks := tasks + [task];
    }

    /** Sends drone `i` off with `task` along `path`. */
    method Send(i: nat, task: Task, path: seq<Pos>)
      requires Valid() && i < |drones| && path != [] && task.supply.weight < 15.0
      requires drones[i].mode == Idle && drones[i].xposition == drones[i].homeX && drones[i].yposition == drones[i].homeY
      modifies drones[i]
      ensures Valid()
      ensures Views() == old(Views())[i := Launch(old(Views())[i], task.region, path, task.supply).0]
    {
      var _ := drones[i].StartMission(task.region, path, task.supply);
      assert forall j :: 0 <= j < |drones| && j != i ==> drones[j].State() == old(drones[j].State());
    }

    /** The route `try_assign` plans: a shortest one from the hub to the centre of `region`, which exists on the plan. */
    method PlanRoute(region: Region) returns (route: seq<Pos>)
      requires Valid()
      ensures ShortestRoute(floor, hub, Center(region), route) && route != [] && route[0] == hub
    {
      CenterInRegion(Hub);
      CenterInRegion(region);
      CentersReachable(floor, region);
      var found := BfsShortestPath(floor, hub, Center(region));
      route := found.value;
    }

    /** The loop over the drones in `try_assign`: the first one idle on its hub with at least `required` charge. */
    method FindReady(required: real) returns (r: Option<nat>)
      ensures r == FirstReady(Views(), required)
    {
      for i := 0 to |drones|
        invariant forall j :: 0 <= j < i ==> !Ready(Views()[j], required)
      {
        var d := drones[i];
        if d.mode == Idle && d.xposition == d.homeX && d.yposition == d.homeY {
          if d.battery >= required {
            NoEarlierReady(Views(), required, i);
            return Some(i);
          }
        }
      }
      return None;
    }

    /**
     * `try_assign`: plans the shortest route from the hub to the region's
     * centre and gives the task to the first drone ready for it. Returns
     * whether a drone took it, with the route planned.
     */
    method TryAssign(task: Task) returns (ok: bool, ghost path: seq<Pos>)
      requires Valid() && task.supply.weight < 15.0
      modifies Objs()
      ensures Valid() && unchanged(floor)
      ensures ShortestRoute(floor, hub, Center(task.region), path)
      ensures (Views(), ok) == Offer(old(Views()), task, path)
    {
      ghost var before := Views();
      var route := PlanRoute(task.region);
      path := route;
      var found := FindReady(Needed(task, route));
      assert Views() == before;
      if found.None? {
        return false, path;
      }
      Send(found.value, task, route);
      ok := true;
    }

    /** One iteration of `update`'s loop: offers task `k` and keeps it if no drone took it. */
    method OfferNext(ghost v0: seq<DroneState>, k: nat, remaining: seq<Task>, ghost paths: seq<seq<Pos>>)
      returns (remaining': seq<Task>, ghost paths': seq<seq<Pos>>)
      requires Valid() && Light(tasks) && k < |tasks| && |paths| == k
      requires AllShortest(floor, hub, tasks[..k], paths)
      requires (Views(), remaining) == Round(v0, tasks[..k], paths)
      modifies Objs()
      ensures Valid() && |paths'| == k + 1
      ensures AllShortest(floor, hub, tasks[..k + 1], paths')
      ensures (Views(), remaining') == Round(v0, tasks[..k + 1], paths')
    {
      var ok, path := TryAssign(tasks[k]);
      assert AllShortest(floor, hub, tasks[..k], paths);
      RoundNext(v0, tasks, paths, path, k);
      AllShortestNext(floor, hub, tasks, paths, path, k);
      remaining' := if ok then remaining else remaining + [tasks[k]];
      paths' := paths + [path];
    }

    /**
     * The dispatcher's `update`: offers every queued task in order and keeps
     * those no drone took. Returns the routes planned, one per task.
     */
    method Update() returns (ghost paths: seq<seq<Pos>>)
      requires Valid() && Light(tasks)
      modifies this, Objs()
      ensures Valid() && |paths| == |old(tasks)|
      ensures AllShortest(floor, hub, old(tasks), paths)
      ensures (Views(), tasks) == Round(old(Views()), old(tasks), paths)
    {
      // An empty queue runs the loop zero times, which is the source's early return.
      var remaining;
      remaining, paths := OfferAll();
      tasks := remaining;
    }

    /** The loop of `update`: offers every queued task in order; returns those no drone took. */
    method OfferAll() returns (remaining: seq<Task>, ghost paths: seq<seq<Pos>>)
      requires Valid() && Light(tasks)
      modifies Objs()
      ensures Valid() && |paths| == |tasks|
      ensures AllShortest(floor, hub, tasks, paths)
      ensures (Views(), remaining) == Round(old(Views()), tasks, paths)
    {
      paths := [];
      ghost var v0 := Views();
      remaining := [];
      for k := 0 to |tasks|
        invariant Valid() && |paths| == k
        invariant AllShortest(floor, hub, tasks[..k], paths)
        invariant (Views(), remaining) == Round(v0, tasks[..k], paths)
      {
        remaining, paths := OfferNext(v0, k, remaining, paths);
      }
      assert tasks[..|tasks|] == tasks;
    }
  }

  /** Each route is a shortest one from `hub` to the centre of its task's region. */
  ghost predicate AllShortest(floor: array2<Kind>, hub: Pos, tasks: seq<Task>, paths: seq<seq<Pos>>)
    requires IsShape(floor) && InBounds(hub)
    reads floor
    decreases |tasks|
  {
    |paths| == |tasks| &&
    (tasks != [] ==>
      var n := |tasks| - 1;
      AllShortest(floor, hub, tasks[..n], paths[..n]) && ShortestRoute(floor, hub, Center(tasks[n].region), paths[n]))
  }

  lemma AllShortestNext(floor: array2<Kind>, hub: Pos, tasks: seq<Task>, paths: seq<seq<Pos>>, path: seq<Pos>, k: nat)
    requires IsShape(floor) && InBounds(hub) && k < |tasks|
    requires AllShortest(floor, hub, tasks[..k], paths)
    requires ShortestRoute(floor, hub, Center(tasks[k].region), path)
    ensures AllShortest(floor, hub, tasks[..k + 1], paths + [path])
  {
    assert tasks[..k + 1][..k] == tasks[..k];
    assert (paths + [path])[..k] == paths;
  }

  /** A round over one more task is the round so far followed by one offer. */
  lemma RoundNext(views: seq<DroneState>, tasks: seq<Task>, paths: seq<seq<Pos>>, path: seq<Pos>, k: nat)
    requires k < |tasks| && |paths| == k && Light(tasks)
    ensures var (v, rest) := Round(views, tasks[..k], paths);
      var (v2, ok) := Offer(v, tasks[k], path);
      Round(views, tasks[..k + 1], paths + [path]) == (v2, if ok then rest else rest + [tasks[k]])
  {
    assert tasks[..k + 1][..k] == tasks[..k];
    assert (paths + [path])[..k] == paths;
  }

  /** When drone `i` is the first ready one, FirstReady finds it. */
  lemma NoEarlierReady(views: seq<DroneState>, required: real, i: nat)
    requires i < |views| && Ready(views[i], required)
    requires forall j :: 0 <= j < i ==> !Ready(views[j], required)
    ensures FirstReady(views, required) == Some(i)
  {
  }
}
