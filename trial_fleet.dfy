/**
 * The trial simulation's fleet: a mission-based drone (idle, outbound along a
 * planned route, returning along it backwards) and a dispatcher that gives a
 * task to the first drone waiting on its hub whose battery covers the whole
 * round trip.
 */
module TrialFleet {
  import opened Common
  import opened TrialPlan
  import B = Backend

  datatype Supply = Supply(name: string, weight: real)

  /** How much faster a load of `weight` kg drains the battery on the way out; None when it is too heavy. */
  function WeightToMultiplier(weight: real): (m: Option<real>)
    ensures m.None? <==> weight >= 15.0
    ensures m.Some? ==> 1.0 <= m.value <= 2.0
  {
    if weight < 0.5 then Some(1.0)
    else if weight < 2.0 then Some(1.2)
    else if weight < 5.0 then Some(1.5)
    else if weight < 15.0 then Some(2.0)
    else None
  }

  /** The trial's weight classes are those of the live-simulation drone. */
  lemma SameClassesAsLive(weight: real)
    ensures WeightToMultiplier(weight) == B.WeightToMultiplier(weight)
  {
  }

  datatype Mode = Idle | Outbound | Returning

  /** A drone's fields. */
  datatype DroneState = DroneState(
    name: string, homeX: int, homeY: int, xposition: int, yposition: int,
    battery: real, supply: Option<Supply>, multiplier: real, mode: Mode,
    path: Option<seq<Pos>>, pathIndex: Option<int>, currentRegion: Option<Region>)

  /** A new drone standing on its home cell, fully charged, idle and empty. */
  function Initial(name: string, homeX: int, homeY: int): DroneState
  {
    DroneState(name, homeX, homeY, homeX, homeY, 100.0, None, 1.0, Idle, None, None, None)
  }

  predicate AtHub(s: DroneState)
  {
    s.xposition == s.homeX && s.yposition == s.homeY
  }

  /**
   * What the drone's methods keep true: the battery never exceeds 100 and an
   * idle drone has charge left; the multiplier is one of the weight classes'
   * values; on a mission the drone holds a route and an index into it.
   */
  predicate WellFormed(s: DroneState)
  {
    s.battery <= 100.0 && 1.0 <= s.multiplier <= 2.0 &&
    (s.mode == Idle ==> s.battery > 0.0) &&
    (s.mode != Idle ==> s.path.Some? && s.pathIndex.Some? && 0 <= s.pathIndex.value < |s.path.value|)
  }

  /** `load_supply`: a load the weight classes accept is stored with its multiplier; a heavier one changes nothing. */
  function Load(s: DroneState, supply: Supply): (r: (DroneState, bool))
    ensures r.1 <==> supply.weight < 15.0
    ensures !r.1 ==> r.0 == s
    ensures r.1 ==> r.0 == s.(supply := Some(supply), multiplier := WeightToMultiplier(supply.weight).value)
  {
    match WeightToMultiplier(supply.weight)
    case None => (s, false)
    case Some(m) => (s.(supply := Some(supply), multiplier := m), true)
  }

  /** `unload_supply` only drops the supply: the multiplier is left as it was. */
  function Unload(s: DroneState): DroneState
  {
    s.(supply := None)
  }

  /**
   * `start_mission`: an idle drone on its hub that accepts the load sets off
   * outbound along `path` from index 0; otherwise nothing changes.
   */
  function Launch(s: DroneState, region: Region, path: seq<Pos>, supply: Supply): (r: (DroneState, bool))
    ensures r.1 <==> s.mode == Idle && AtHub(s) && supply.weight < 15.0
    ensures !r.1 ==> r.0 == s
    ensures r.1 ==> r.0 == s.(supply := Some(supply), multiplier := WeightToMultiplier(supply.weight).value,
                             currentRegion := Some(region), path := Some(path), pathIndex := Some(0), mode := Outbound)
    ensures r.1 && path != [] && WellFormed(s) ==> WellFormed(r.0)
  {
    if s.mode != Idle || !AtHub(s) then (s, false)
    else
      var (t, ok) := Load(s, supply);
      if !ok then (t, false)
      else (t.(currentRegion := Some(region), path := Some(path), pathIndex := Some(0), mode := Outbound), true)
  }

  /**
   * One `update`. Idle: recharge by 0.5 up to 100 when on the hub. On a
   * mission with no charge left: nothing. Outbound: step to the next cell of
   * the route, draining 0.5 times the multiplier, or, at the last cell,
   * unload, reset the multiplier and turn back. Returning: step to the
   * previous cell, draining 0.5, or, at the first cell, become idle and drop
   * the route.
   */
  function Step(s: DroneState): (t: DroneState)
    requires WellFormed(s)
    ensures WellFormed(t)
    ensures t.name == s.name && t.homeX == s.homeX && t.homeY == s.homeY && t.currentRegion == s.currentRegion
  {
    if s.mode == Idle then
      if AtHub(s) && s.battery < 100.0 then s.(battery := if s.battery + 0.5 < 100.0 then s.battery + 0.5 else 100.0)
      else s
    else if s.battery <= 0.0 then s
    else
      var p, i := s.path.value, s.pathIndex.value;
      if s.mode == Outbound then
        if i >= |p| - 1 then Unload(s).(mode := Returning, pathIndex := Some(|p| - 1), multiplier := 1.0)
        else s.(xposition := p[i + 1].0, yposition := p[i + 1].1, pathIndex := Some(i + 1),
                battery := s.battery - 0.5 * s.multiplier)
      else
        if i == 0 then s.(mode := Idle, path := None, pathIndex := None)
        else s.(xposition := p[i - 1].0, yposition := p[i - 1].1, pathIndex := Some(i - 1), battery := s.battery - 0.5)
  }

  /** The state after `n` updates. */
  function Steps(s: DroneState, n: nat): (t: DroneState)
    requires WellFormed(s)
    ensures WellFormed(t)
  {
    if n == 0 then s else Step(Steps(s, n - 1))
  }

  /** `c` = a+b updates are `a` updates followed by `b` more. */
  lemma {:induction false} StepsAdd(s: DroneState, a: nat, b: nat, c: nat)
    requires WellFormed(s) && c == a + b
    ensures Steps(s, c) == Steps(Steps(s, a), b)
  {
    if b > 0 {
      StepsAdd(s, a, b - 1, c - 1);
    }
  }

  /** An idle drone recharges only on its hub, by 0.5 a tick, and never beyond 100. */
  lemma IdleRecharge(s: DroneState)
    requires WellFormed(s) && s.mode == Idle
    ensures Step(s).mode == Idle && Step(s).xposition == s.xposition && Step(s).yposition == s.yposition
    ensures AtHub(s) && s.battery < 100.0 ==> Step(s).battery == if s.battery + 0.5 < 100.0 then s.battery + 0.5 else 100.0
    ensures !AtHub(s) || s.battery >= 100.0 ==> Step(s) == s
  {
  }

  /** A drone on a mission with no charge left never moves again. */
  lemma {:induction false} OutOfBatteryStays(s: DroneState, n: nat)
    requires WellFormed(s) && s.mode != Idle && s.battery <= 0.0
    ensures Steps(s, n) == s
  {
    if n > 0 {
      OutOfBatteryStays(s, n - 1);
    }
  }

  /** On a mission the battery never rises. */
  lemma MissionDrains(s: DroneState)
    requires WellFormed(s) && s.mode != Idle
    ensures Step(s).battery <= s.battery
  {
  }

  /** The charge `k` moves at `c` each take, added up move by move. */
  function Drain(k: nat, c: real): real
  {
    if k == 0 then 0.0 else Drain(k - 1, c) + c
  }

  lemma {:induction false} DrainIsProduct(k: nat, c: real)
    ensures Drain(k, c) == k as real * c
  {
    if k > 0 {
      DrainIsProduct(k - 1, c);
    }
  }

  /**
   * Outbound on the cell its index points at, with charge for `k` more moves,
   * `k` updates walk the drone `k` cells further along its route, draining 0.5
   * times the multiplier each.
   */
  lemma {:induction false} OutboundRun(s: DroneState, k: nat)
    requires WellFormed(s) && s.mode == Outbound && s.pathIndex.value + k <= |s.path.value| - 1
    requires (s.xposition, s.yposition) == s.path.value[s.pathIndex.value]
    requires k > 0 ==> s.battery > Drain(k - 1, 0.5 * s.multiplier)
    ensures var i := s.pathIndex.value + k;
      Steps(s, k) ==
        s.(xposition := s.path.value[i].0, yposition := s.path.value[i].1, pathIndex := Some(i),
           battery := s.battery - Drain(k, 0.5 * s.multiplier))
  {
    if k > 0 {
      OutboundRun(s, k - 1);
    }
  }

  /**
   * Returning on the cell its index points at, with charge for `k` more
   * moves, `k` updates walk the drone `k` cells back along its route,
   * draining 0.5 each.
   */
  lemma {:induction false} ReturnRun(s: DroneState, k: nat)
    requires WellFormed(s) && s.mode == Returning && k <= s.pathIndex.value
    requires (s.xposition, s.yposition) == s.path.value[s.pathIndex.value]
    requires k > 0 ==> s.battery > Drain(k - 1, 0.5)
    ensures var i := s.pathIndex.value - k;
      Steps(s, k) ==
        s.(xposition := s.path.value[i].0, yposition := s.path.value[i].1, pathIndex := Some(i),
           battery := s.battery - Drain(k, 0.5))
  {
    if k > 0 {
      ReturnRun(s, k - 1);
    }
  }

  /** What `try_assign` asks of the battery for a route of `steps` moves: the way out under the load's multiplier plus the way back. */
  function Required(steps: int, mult: real): real
  {
    steps as real * 0.5 * mult + steps as real * 0.5
  }

  /** The charge `try_assign` asks for is the drain of the way out plus that of the way back. */
  lemma RequiredSplits(n: nat, m: real)
    requires m >= 1.0
    ensures Required(n, m) == Drain(n, 0.5 * m) + Drain(n, 0.5)
    ensures Drain(n, 0.5 * m) >= 0.0 && (n > 0 ==> Drain(n, 0.5) > 0.0)
  {
    DrainIsProduct(n, 0.5 * m);
    DrainIsProduct(n, 0.5);
  }

  /** At the last cell of its route with charge left, an outbound drone unloads, resets its multiplier and turns back. */
  lemma Arrive(a: DroneState)
    requires WellFormed(a) && a.mode == Outbound && a.pathIndex == Some(|a.path.value| - 1) && a.battery > 0.0
    ensures Step(a) == a.(supply := None, multiplier := 1.0, mode := Returning)
  {
  }

  /** The way out: from index 0 with charge for every move, n+1 updates reach the last cell, unload there and turn back. */
  lemma {:induction false} OutboundLeg(t: DroneState)
    requires WellFormed(t) && t.mode == Outbound && t.pathIndex == Some(0)
    requires (t.xposition, t.yposition) == t.path.value[0]
    requires t.battery > Drain(|t.path.value| - 1, 0.5 * t.multiplier)
    ensures var p, n := t.path.value, |t.path.value| - 1;
      Steps(t, n + 1) ==
        t.(supply := None, multiplier := 1.0, mode := Returning, pathIndex := Some(n),
           xposition := p[n].0, yposition := p[n].1, battery := t.battery - Drain(n, 0.5 * t.multiplier))
  {
    var p, n := t.path.value, |t.path.value| - 1;
    OutboundRun(t, n);
    Arrive(Steps(t, n));
  }

  /** The way back: from the last index with charge for every move, n updates walk back to the first cell. */
  lemma {:induction false} ReturnLeg(r: DroneState)
    requires WellFormed(r) && r.mode == Returning && r.pathIndex == Some(|r.path.value| - 1)
    requires (r.xposition, r.yposition) == r.path.value[|r.path.value| - 1]
    requires r.battery >= Drain(|r.path.value| - 1, 0.5)
    ensures var p, n := r.path.value, |r.path.value| - 1;
      Steps(r, n) == r.(pathIndex := Some(0), xposition := p[0].0, yposition := p[0].1, battery := r.battery - Drain(n, 0.5))
  {
    ReturnRun(r, |r.path.value| - 1);
  }

  /** Outbound from the first cell of a route with charge for the whole trip, 2n+1 updates bring the drone back to that cell, unloaded and still "returning". */
  lemma {:induction false} Trip(t: DroneState)
    requires WellFormed(t) && t.mode == Outbound && t.pathIndex == Some(0)
    requires (t.xposition, t.yposition) == t.path.value[0]
    requires var n := |t.path.value| - 1;
      t.battery > Drain(n, 0.5 * t.multiplier) && t.battery - Drain(n, 0.5 * t.multiplier) >= Drain(n, 0.5)
    ensures var n := |t.path.value| - 1;
      Steps(t, 2 * n + 1) ==
        t.(supply := None, multiplier := 1.0, mode := Returning,
           battery := t.battery - Drain(n, 0.5 * t.multiplier) - Drain(n, 0.5))
  {
    var n := |t.path.value| - 1;
    OutboundLeg(t);
    ReturnLeg(Steps(t, n + 1));
    OutAndBack(t, n);
  }

  /** 2n+1 updates are the n+1 of the way out followed by the n of the way back. */
  lemma {:induction false} OutAndBack(t: DroneState, n: nat)
    requires WellFormed(t)
    ensures Steps(t, 2 * n + 1) == Steps(Steps(t, n + 1), n)
  {
    StepsAdd(t, n + 1, n, 2 * n + 1);
  }

  /**
   * The round trip. An idle drone on its hub, sent along a route that starts
   * there with at least the charge `try_assign` asks for, is back on its hub
   * after 2n+1 updates (n the number of moves), unloaded, with exactly that
   * charge spent; it is then still "returning" at index 0.
   */
  lemma {:induction false} RoundTrip(s: DroneState, region: Region, path: seq<Pos>, supply: Supply)
    requires WellFormed(s) && s.mode == Idle && AtHub(s) && supply.weight < 15.0
    requires path != [] && path[0] == (s.homeX, s.homeY)
    requires s.battery >= Required(|path| - 1, WeightToMultiplier(supply.weight).value)
    ensures var t := Launch(s, region, path, supply).0;
      var n := |path| - 1;
      Steps(t, 2 * n + 1) ==
        t.(supply := None, multiplier := 1.0, mode := Returning, pathIndex := Some(0),
           battery := s.battery - Required(n, WeightToMultiplier(supply.weight).value))
  {
    RequiredSplits(|path| - 1, WeightToMultiplier(supply.weight).value);
    Trip(Launch(s, region, path, supply).0);
  }

  /**
   * With no spare charge the drone never gets home: dispatched with exactly the
   * charge `try_assign` asks for along a route of at least one move, it comes
   * back to its hub cell with an empty battery, and the out-of-battery guard,
   * which comes before the arrival check, keeps it "returning" there forever.
   */
  lemma {:induction false} ExactChargeStrands(s: DroneState, region: Region, path: seq<Pos>, supply: Supply, k: nat)
    requires WellFormed(s) && s.mode == Idle && AtHub(s) && supply.weight < 15.0
    requires |path| >= 2 && path[0] == (s.homeX, s.homeY)
    requires s.battery == Required(|path| - 1, WeightToMultiplier(supply.weight).value)
    ensures var t := Launch(s, region, path, supply).0;
      var u := Steps(t, 2 * (|path| - 1) + 1 + k);
      u.mode == Returning && u.battery == 0.0 && AtHub(u)
  {
    RoundTrip(s, region, path, supply);
    StrandedAfter(Launch(s, region, path, supply).0, 2 * (|path| - 1) + 1, k);
  }

  /** Once a drone on a mission has run its battery down after `m` updates, no further update changes it. */
  lemma {:induction false} StrandedAfter(t: DroneState, m: nat, k: nat)
    requires WellFormed(t) && Steps(t, m).mode != Idle && Steps(t, m).battery <= 0.0
    ensures Steps(t, m + k) == Steps(t, m)
  {
    StepsAdd(t, m, k, m + k);
    OutOfBatteryStays(Steps(t, m), k);
  }

  /**
   * With charge to spare the mission closes: one more update makes the drone
   * idle on its hub, route dropped, unloaded, with the required charge spent,
   * so it can recharge and be dispatched again.
   */
  lemma {:induction false} SpareChargeLands(s: DroneState, region: Region, path: seq<Pos>, supply: Supply)
    requires WellFormed(s) && s.mode == Idle && AtHub(s) && supply.weight < 15.0
    requires path != [] && path[0] == (s.homeX, s.homeY)
    requires s.battery > Required(|path| - 1, WeightToMultiplier(supply.weight).value)
    ensures var t := Launch(s, region, path, supply).0;
      var u := Steps(t, 2 * |path|);
      u.mode == Idle && AtHub(u) && u.path.None? && u.supply.None? && u.multiplier == 1.0 &&
      u.battery == s.battery - Required(|path| - 1, WeightToMultiplier(supply.weight).value)
  {
    var t := Launch(s, region, path, supply).0;
    var n := |path| - 1;
    RoundTrip(s, region, path, supply);
    assert 2 * |path| - 1 == 2 * n + 1;
    LandsAfterTrip(t, 2 * |path|, s.battery - Required(n, WeightToMultiplier(supply.weight).value));
  }

  /** A drone back at the first cell of its route with charge `b` left becomes idle on the next update and drops the route. */
  lemma LandsAfterTrip(t: DroneState, m: nat, b: real)
    requires WellFormed(t) && m > 0 && b > 0.0
    requires Steps(t, m - 1) == t.(supply := None, multiplier := 1.0, mode := Returning, pathIndex := Some(0), battery := b)
    ensures Steps(t, m) ==
      t.(supply := None, multiplier := 1.0, mode := Idle, path := None, pathIndex := None, battery := b)
  {
  }

  /** A drone of the trial simulation, updated in place. */
  class Drone {
    var name: string
    var homeX: int
    var homeY: int
    var xposition: int
    var yposition: int
    var battery: real
    var supply: Option<Supply>
    var multiplier: real
    var mode: Mode
    var path: Option<seq<Pos>>
    var pathIndex: Option<int>
    var currentRegion: Option<Region>

    function State(): DroneState
      reads this
    {
      DroneState(name, homeX, homeY, xposition, yposition, battery, supply, multiplier, mode, path, pathIndex, currentRegion)
    }

    constructor(name: string, homeX: int, homeY: int)
      ensures State() == Initial(name, homeX, homeY)
    {
      this.name := name;
      this.homeX := homeX;
      this.homeY := homeY;
      xposition := homeX;
      yposition := homeY;
      battery := 100.0;
      supply := None;
      multiplier := 1.0;
      mode := Idle;
      path := None;
      pathIndex := None;
      currentRegion := None;
    }

    /** Returns whether the load was accepted. */
    method LoadSupply(supply: Supply) returns (ok: bool)
      modifies this
      ensures (State(), ok) == Load(old(State()), supply)
    {
      var mult := WeightToMultiplier(supply.weight);
      if mult.None? {
        return false;
      }
      this.supply := Some(supply);
      multiplier := mult.value;
      return true;
    }

    method UnloadSupply()
      modifies this
      ensures State() == Unload(old(State()))
    {
      supply := None;
    }

    /** Returns whether the mission started. */
    method StartMission(region: Region, path: seq<Pos>, supply: Supply) returns (ok: bool)
      modifies this
      ensures (State(), ok) == Launch(old(State()), region, path, supply)
    {
      if mode != Idle || !(xposition == homeX && yposition == homeY) {
        return false;
      }
      ok := LoadSupply(supply);
      if !ok {
        return;
      }
      currentRegion := Some(region);
      this.path := Some(path);
      pathIndex := Some(0);
      mode := Outbound;
    }

    method Update()
      requires WellFormed(State())
      modifies this
      ensures State() == Step(old(State()))
    {
      if mode == Idle {
        if xposition == homeX && yposition == homeY && battery < 100.0 {
          battery := if battery + 0.5 < 100.0 then battery + 0.5 else 100.0;
        }
        return;
      }
      if battery <= 0.0 {
        return;
      }
      var p, i := path.value, pathIndex.value;
      if mode == Outbound {
        if i >= |p| - 1 {
          UnloadSupply();
          mode := Returning;
          pathIndex := Some(|p| - 1);
          multiplier := 1.0;
          return;
        }
        xposition, yposition := p[i + 1].0, p[i + 1].1;
        pathIndex := Some(i + 1);
        battery := battery - 0.5 * multiplier;
        return;
      }
      if i == 0 {
        mode := Idle;
        path := None;
        pathIndex := None;
        return;
      }
      xposition, yposition := p[i - 1].0, p[i - 1].1;
      pathIndex := Some(i - 1);
      battery := battery - 0.5;
    }
  }
}
