/**
 * The clocked copy of the drone: the same weight classes, loading and command
 * parsing as the live-simulation drone, but its update unloads the supply by
 * itself once the drone stands on the destination it was given.
 */
module Timing {
  import opened Common
  import B = Backend

  /**
   * The state after one `update`: a commanded drone moves one cell and drains
   * 0.5 times its multiplier when the new cell is in the grid; then, moved or
   * not, if it stands on its destination its supply is unloaded. Without a
   * command nothing changes.
   */
  function Step(s: B.DroneState): B.DroneState
  {
    match s.command
    case None => s
    case Some(d) =>
      var nx, ny := s.xposition + B.DeltaX(d), s.yposition + B.DeltaY(d);
      var t := if B.InGrid(nx, ny) then s.(xposition := nx, yposition := ny, battery := s.battery - 0.5 * s.multiplier) else s;
      if t.destination == Some((t.xposition, t.yposition)) then t.(supply := None, multiplier := 1.0) else t
  }

  /** Away from the destination this drone moves exactly as the live-simulation drone; on it, it also unloads. */
  lemma AgreesWithBackend(s: B.DroneState)
    ensures var t := B.Step(s);
      Step(s) == if s.command.Some? && t.destination == Some((t.xposition, t.yposition)) then B.Unloaded(t) else t
  {
  }

  /** Without a command, an update changes nothing, not even on the destination. */
  lemma StepWithoutCommand(s: B.DroneState)
    requires s.command.None?
    ensures Step(s) == s
  {
  }

  /** A commanded update that ends on the destination leaves the drone unloaded. */
  lemma UnloadsAtDestination(s: B.DroneState)
    requires s.command.Some?
    requires Step(s).destination == Some((Step(s).xposition, Step(s).yposition))
    ensures Step(s).supply.None? && Step(s).multiplier == 1.0
  {
  }

  /** A move refused at the edge still unloads when the drone already stands on its destination. */
  lemma RefusedMoveStillUnloads(s: B.DroneState)
    requires s.command.Some?
    requires !B.InGrid(s.xposition + B.DeltaX(s.command.value), s.yposition + B.DeltaY(s.command.value))
    requires s.destination == Some((s.xposition, s.yposition))
    ensures Step(s) == B.Unloaded(s)
  {
  }

  /** Repeating a refused update on the destination changes nothing more: the unload is harmless to repeat. */
  lemma RepeatedUnloadHarmless(s: B.DroneState)
    requires s.command.Some?
    requires !B.InGrid(s.xposition + B.DeltaX(s.command.value), s.yposition + B.DeltaY(s.command.value))
    requires s.destination == Some((s.xposition, s.yposition))
    ensures Step(Step(s)) == Step(s)
  {
  }

  /** An in-grid move drains 0.5 times the multiplier held before the update; a refused one drains nothing. */
  lemma StepDrain(s: B.DroneState)
    requires s.command.Some?
    ensures B.InGrid(s.xposition + B.DeltaX(s.command.value), s.yposition + B.DeltaY(s.command.value)) ==>
              Step(s).battery == s.battery - 0.5 * s.multiplier &&
              Step(s).xposition == s.xposition + B.DeltaX(s.command.value) &&
              Step(s).yposition == s.yposition + B.DeltaY(s.command.value)
    ensures !B.InGrid(s.xposition + B.DeltaX(s.command.value), s.yposition + B.DeltaY(s.command.value)) ==>
              Step(s).battery == s.battery && Step(s).xposition == s.xposition && Step(s).yposition == s.yposition
    ensures Step(s).command == s.command && Step(s).destination == s.destination
  {
  }

  /** The state after `n` updates. */
  function Steps(s: B.DroneState, n: nat): B.DroneState
  {
    if n == 0 then s else Step(Steps(s, n - 1))
  }

  /**
   * The command is never cleared, so repeated updates keep moving the drone the
   * same way until the edge of the grid, along the same cells as the
   * live-simulation drone, whatever the destination and the supply.
   */
  lemma {:induction false} SameCellsAsBackend(s: B.DroneState, n: nat)
    ensures Steps(s, n).xposition == B.Steps(s, n).xposition
    ensures Steps(s, n).yposition == B.Steps(s, n).yposition
    ensures Steps(s, n).command == s.command && Steps(s, n).destination == s.destination
    ensures B.Steps(s, n).command == s.command
  {
    if n > 0 {
      SameCellsAsBackend(s, n - 1);
      SameCellsOneStep(Steps(s, n - 1), B.Steps(s, n - 1));
    }
  }

  /** Where an update takes the drone depends only on its cell and its command. */
  lemma SameCellsOneStep(a: B.DroneState, b: B.DroneState)
    requires a.xposition == b.xposition && a.yposition == b.yposition && a.command == b.command
    ensures Step(a).xposition == B.Step(b).xposition && Step(a).yposition == B.Step(b).yposition
    ensures Step(a).command == a.command && Step(a).destination == a.destination
    ensures B.Step(b).command == b.command
  {
  }

  /** From inside the grid, `n` commanded updates move `n` cells, or up to the edge if that is nearer. */
  lemma RunsToEdge(s: B.DroneState, n: nat)
    requires s.command.Some? && B.InGrid(s.xposition, s.yposition)
    ensures var k := if n <= B.Room(s) then n else B.Room(s);
      Steps(s, n).xposition == s.xposition + B.DeltaX(s.command.value) * k &&
      Steps(s, n).yposition == s.yposition + B.DeltaY(s.command.value) * k
  {
    SameCellsAsBackend(s, n);
    B.StepsRunToEdge(s, n);
  }

  /** The clocked drone, updated in place. */
  class Drone {
    var name: string
    var xposition: int
    var yposition: int
    var battery: real
    var command: Option<B.Direction>
    var supply: Option<B.Supply>
    var multiplier: real
    var destination: Option<(int, int)>

    function State(): B.DroneState
      reads this
    {
      B.DroneState(name, xposition, yposition, battery, command, supply, multiplier, destination)
    }

    constructor(name: string)
      ensures State() == B.Initial(name)
    {
      this.name := name;
      xposition := 0;
      yposition := 0;
      battery := 100.0;
      command := None;
      supply := None;
      multiplier := 1.0;
      destination := None;
    }

    method SetDestination(x: int, y: int)
      modifies this
      ensures State() == old(State()).(destination := Some((x, y)))
    {
      destination := Some((x, y));
    }

    /** Returns whether the load was accepted. */
    method LoadSupply(s: B.Supply) returns (ok: bool)
      modifies this
      ensures ok <==> s.weight < 15.0
      ensures State() == B.Loaded(old(State()), s)
    {
      var mult := B.WeightToMultiplier(s.weight);
      if mult.None? {
        return false;
      }
      supply := Some(s);
      multiplier := mult.value;
      return true;
    }

    method UnloadSupply()
      modifies this
      ensures State() == B.Unloaded(old(State()))
    {
      supply := None;
      multiplier := 1.0;
    }

    method SetCommand(direction: B.CommandArg)
      modifies this
      ensures State() == old(State()).(command := B.ParseCommand(direction))
    {
      var arg := direction;
      if arg.IntArg? {
        var n := arg.code;
        arg := if n == 1 then B.TextArg("up") else if n == 2 then B.TextArg("down")
               else if n == 3 then B.TextArg("left") else if n == 4 then B.TextArg("right") else B.NoArg;
      }
      if arg.NoArg? {
        command := None;
        return;
      }
      var d := B.Lower(arg.text);
      B.LowerName(B.Up);
      B.LowerName(B.Down);
      B.LowerName(B.Left);
      B.LowerName(B.Right);
      command := B.NameToDirection(d);
    }

    method Update()
      modifies this
      ensures State() == Step(old(State()))
    {
      var dx, dy := 0, 0;
      match command {
        case None => return;
        case Some(d) => dx, dy := B.DeltaX(d), B.DeltaY(d);
      }
      var newX, newY := xposition + dx, yposition + dy;
      if 0 <= newX < B.GridWidth && 0 <= newY < B.GridHeight {
        xposition, yposition := newX, newY;
        battery := battery - 0.5 * multiplier;
      }
      if destination == Some((xposition, yposition)) {
        UnloadSupply();
      }
    }
  }
}
