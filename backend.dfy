/**
 * The single-step drone of the live simulation: a supply's weight class sets
 * the battery drain multiplier, a command names one of four directions, and
 * each update moves at most one cell inside the 20x20 grid.
 *
 * Coordinates: `xposition` is the column and `yposition` the row; "up"
 * decreases the row.
 */
module Backend {
  import opened Common

  const GridWidth: int := 20
  const GridHeight: int := 20

  /** A named supply and its weight in kilograms. */
  datatype Supply = Supply(name: string, weight: real)

  /**
   * Battery drain multiplier for a load: 1.0 below 0.5 kg, 1.2 below 2 kg,
   * 1.5 below 5 kg, 2.0 below 15 kg, and no multiplier (too heavy) from 15 kg on.
   */
  function WeightToMultiplier(weight: real): (m: Option<real>)
    ensures m.None? <==> weight >= 15.0
    ensures m.Some? ==> 1.0 <= m.value <= 2.0
  {
    if weight < 0.5 then Some(1.0)
    else if weight < 2.0 then Some(1.2)
    else if weight < 5.0 then Some(1.5)
    else if weight < 15.0 then Some(2.0)
    else None
  }

  /** A heavier load never drains less. */
  lemma MultiplierMonotone(w1: real, w2: real)
    requires w1 <= w2 < 15.0
    ensures WeightToMultiplier(w1).Some? && WeightToMultiplier(w2).Some?
    ensures WeightToMultiplier(w1).value <= WeightToMultiplier(w2).value
  {
  }

  datatype Direction = Up | Down | Left | Right

  /** The lower-case name a command is stored under. */
  function DirectionName(d: Direction): string
  {
    match d
    case Up => "up"
    case Down => "down"
    case Left => "left"
    case Right => "right"
  }

  /** The integer code a command may be given as. */
  function DirectionCode(d: Direction): int
  {
    match d
    case Up => 1
    case Down => 2
    case Left => 3
    case Right => 4
  }

  /** The column change of a step. */
  function DeltaX(d: Direction): int
  {
    match d
    case Left => -1
    case Right => 1
    case _ => 0
  }

  /** The row change of a step. */
  function DeltaY(d: Direction): int
  {
    match d
    case Up => -1
    case Down => 1
    case _ => 0
  }

  /** What a command may be given as: an integer code, a text, or nothing. */
  datatype CommandArg = IntArg(code: int) | TextArg(text: string) | NoArg

  function LowerChar(c: char): char
  {
    if 'A' <= c <= 'Z' then (c as int + 32) as char else c
  }

  function UpperChar(c: char): char
  {
    if 'a' <= c <= 'z' then (c as int - 32) as char else c
  }

  /**
   * Lower-casing; on the four direction names ASCII folding decides the same
   * as full case folding. No capital letter is left, each capital becomes its
   * small letter, and every other character is kept.
   */
  function Lower(s: string): (r: string)
    ensures |r| == |s|
    ensures forall i :: 0 <= i < |r| ==> !('A' <= r[i] <= 'Z')
    ensures forall i :: 0 <= i < |s| && 'A' <= s[i] <= 'Z' ==> UpperChar(r[i]) == s[i]
    ensures forall i :: 0 <= i < |s| && !('A' <= s[i] <= 'Z') ==> r[i] == s[i]
  {
    seq(|s|, i requires 0 <= i < |s| => LowerChar(s[i]))
  }

  /** Lower-casing twice is lower-casing once. */
  lemma LowerIdempotent(s: string)
    ensures Lower(Lower(s)) == Lower(s)
  {
  }

  /** `s` spells `name` with any of its letters capitalised, as in "Up", "UP" or "uP". */
  predicate CaseVariant(s: string, name: string)
  {
    |s| == |name| && forall i :: 0 <= i < |s| ==> s[i] == name[i] || s[i] == UpperChar(name[i])
  }

  /** A text lower-cases to an all-small-letter name exactly when it spells that name in some letter case. */
  lemma LowerToName(s: string, name: string)
    requires forall i :: 0 <= i < |name| ==> 'a' <= name[i] <= 'z'
    ensures Lower(s) == name <==> CaseVariant(s, name)
  {
    if CaseVariant(s, name) {
      assert forall i :: 0 <= i < |s| ==> Lower(s)[i] == name[i];
    }
  }

  /** A text names direction `d` exactly when it spells d's name in some letter case. */
  lemma ParseAnyCase(s: string, d: Direction)
    ensures ParseCommand(TextArg(s)) == Some(d) <==> CaseVariant(s, DirectionName(d))
  {
    LowerToName(s, DirectionName(d));
  }

  function NameToDirection(name: string): Option<Direction>
  {
    if name == "up" then Some(Up)
    else if name == "down" then Some(Down)
    else if name == "left" then Some(Left)
    else if name == "right" then Some(Right)
    else None
  }

  /** The direction names are already lower case. */
  lemma LowerName(d: Direction)
    ensures Lower(DirectionName(d)) == DirectionName(d)
  {
    var name := DirectionName(d);
    assert forall i :: 0 <= i < |name| ==> 'a' <= name[i] <= 'z';
  }

  /** The command `set_command` stores: codes 1..4, or a direction name in any letter case; otherwise none. */
  function ParseCommand(arg: CommandArg): Option<Direction>
  {
    match arg
    case NoArg => None
    case IntArg(n) =>
      if n == 1 then Some(Up)
      else if n == 2 then Some(Down)
      else if n == 3 then Some(Left)
      else if n == 4 then Some(Right)
      else None
    case TextArg(s) => NameToDirection(Lower(s))
  }

  /** An integer is accepted exactly when it is a direction's code, and then gives that direction. */
  lemma ParseCode(n: int, d: Direction)
    ensures ParseCommand(IntArg(n)) == Some(d) <==> n == DirectionCode(d)
    ensures ParseCommand(IntArg(n)).Some? <==> 1 <= n <= 4
  {
  }

  /** A text is accepted exactly when its lower-cased form is a direction's name. */
  lemma ParseText(s: string, d: Direction)
    ensures ParseCommand(TextArg(s)) == Some(d) <==> Lower(s) == DirectionName(d)
  {
  }

  /** Names are matched regardless of letter case: "RIGHT", "Right" and "right" give the same command. */
  lemma ParseCaseInsensitive(s: string)
    ensures ParseCommand(TextArg(s)) == ParseCommand(TextArg(Lower(s)))
  {
    LowerIdempotent(s);
  }

  /** Everything a backend drone holds. */
  datatype DroneState = DroneState(
    name: string,
    xposition: int,
    yposition: int,
    battery: real,
    command: Option<Direction>,
    supply: Option<Supply>,
    multiplier: real,
    destination: Option<(int, int)>)

  function Initial(name: string): DroneState
  {
    DroneState(name, 0, 0, 100.0, None, None, 1.0, None)
  }

  predicate InGrid(x: int, y: int)
  {
    0 <= x < GridWidth && 0 <= y < GridHeight
  }

  /** The state after `load_supply`: supply and multiplier stored when the weight is accepted. */
  function Loaded(s: DroneState, supply: Supply): DroneState
  {
    match WeightToMultiplier(supply.weight)
    case None => s
    case Some(m) => s.(supply := Some(supply), multiplier := m)
  }

  /** The state after `unload_supply`. */
  function Unloaded(s: DroneState): DroneState
  {
    s.(supply := None, multiplier := 1.0)
  }

  /**
   * The state after one `update`: with a command, the drone moves one cell in
   * that direction and drains 0.5 times its multiplier when the new cell is in
   * the grid; otherwise nothing changes. Reaching the destination has no effect.
   */
  function Step(s: DroneState): DroneState
  {
    match s.command
    case None => s
    case Some(d) =>
      var nx, ny := s.xposition + DeltaX(d), s.yposition + DeltaY(d);
      if InGrid(nx, ny) then s.(xposition := nx, yposition := ny, battery := s.battery - 0.5 * s.multiplier)
      else s
  }

  /** A load of 15 kg or more is refused and changes nothing. */
  lemma LoadRefused(s: DroneState, supply: Supply)
    requires supply.weight >= 15.0
    ensures Loaded(s, supply) == s
  {
  }

  /** A lighter load is stored with its multiplier; position, battery and command are untouched. */
  lemma LoadAccepted(s: DroneState, supply: Supply)
    requires supply.weight < 15.0
    ensures Loaded(s, supply).supply == Some(supply)
    ensures Loaded(s, supply).multiplier == WeightToMultiplier(supply.weight).value
    ensures Loaded(s, supply) == s.(supply := Some(supply), multiplier := Loaded(s, supply).multiplier)
  {
  }

  /** Unloading after a load leaves the drone as unloading without it would. */
  lemma UnloadUndoesLoad(s: DroneState, supply: Supply)
    ensures Unloaded(Loaded(s, supply)) == Unloaded(s)
  {
  }

  /** Without a command, an update changes nothing. */
  lemma StepWithoutCommand(s: DroneState)
    requires s.command.None?
    ensures Step(s) == s
  {
  }

  /**
   * An update either leaves position and battery as they were, or moves exactly
   * one cell in the commanded direction, into the grid, and drains 0.5 times the
   * multiplier. It never touches name, command, supply, multiplier or destination.
   */
  lemma StepEffect(s: DroneState)
    ensures var t := Step(s);
      (t.xposition == s.xposition && t.yposition == s.yposition && t.battery == s.battery) ||
      (s.command.Some? &&
       t.xposition == s.xposition + DeltaX(s.command.value) &&
       t.yposition == s.yposition + DeltaY(s.command.value) &&
       InGrid(t.xposition, t.yposition) &&
       t.battery == s.battery - 0.5 * s.multiplier)
    ensures var t := Step(s);
      t.name == s.name && t.command == s.command && t.supply == s.supply &&
      t.multiplier == s.multiplier && t.destination == s.destination
  {
  }

  /** A move that would leave the grid is refused: position and battery stay. */
  lemma StepRefusedAtEdge(s: DroneState)
    requires s.command.Some?
    requires !InGrid(s.xposition + DeltaX(s.command.value), s.yposition + DeltaY(s.command.value))
    ensures Step(s) == s
  {
  }

  /** A drone inside the grid stays inside it. */
  lemma StepStaysInGrid(s: DroneState)
    requires InGrid(s.xposition, s.yposition)
    ensures InGrid(Step(s).xposition, Step(s).yposition)
  {
  }

  /** The battery has no floor: an empty battery still pays for a move and goes negative. */
  lemma BatteryMayGoNegative()
    ensures Step(Initial("D1").(command := Some(Right), battery := 0.0)).battery == -0.5
  {
  }

  /** The state after `n` updates. */
  function Steps(s: DroneState, n: nat): DroneState
  {
    if n == 0 then s else Step(Steps(s, n - 1))
  }

  /** How many cells the drone can move in its commanded direction before the edge of the grid. */
  function Room(s: DroneState): int
    requires s.command.Some?
  {
    match s.command.value
    case Up => s.yposition
    case Down => GridHeight - 1 - s.yposition
    case Left => s.xposition
    case Right => GridWidth - 1 - s.xposition
  }

  /** The drone moved `k` cells in its commanded direction, having paid 0.5 times the multiplier for each. */
  function Advanced(s: DroneState, k: nat): DroneState
    requires s.command.Some?
  {
    var d := s.command.value;
    s.(xposition := s.xposition + DeltaX(d) * k, yposition := s.yposition + DeltaY(d) * k,
       battery := s.battery - 0.5 * s.multiplier * k as real)
  }

  lemma StepAdvanced(s: DroneState, k: nat)
    requires s.command.Some? && InGrid(s.xposition, s.yposition) && k <= Room(s)
    ensures k < Room(s) ==> Step(Advanced(s, k)) == Advanced(s, k + 1)
    ensures k == Room(s) ==> Step(Advanced(s, k)) == Advanced(s, k)
  {
    var m := s.multiplier;
    assert 0.5 * m * (k + 1) as real == 0.5 * m * k as real + 0.5 * m;
  }

  /**
   * The command persists: `n` updates move the drone `n` cells in the commanded
   * direction, or up to the edge of the grid if that is nearer, paying 0.5 times
   * the multiplier for each cell actually moved.
   */
  lemma {:induction false} StepsRunToEdge(s: DroneState, n: nat)
    requires s.command.Some? && InGrid(s.xposition, s.yposition)
    ensures Room(s) >= 0
    ensures Steps(s, n) == Advanced(s, if n <= Room(s) then n else Room(s))
  {
    if n > 0 {
      StepsRunToEdge(s, n - 1);
      StepAdvanced(s, if n - 1 <= Room(s) then n - 1 else Room(s));
    }
  }

  /** A drone of the live simulation, updated in place. */
  class Drone {
    var name: string
    var xposition: int
    var yposition: int
    var battery: real
    var command: Option<Direction>
    var supply: Option<Supply>
    var multiplier: real
    var destination: Option<(int, int)>

    function State(): DroneState
      reads this
    {
      DroneState(name, xposition, yposition, battery, command, supply, multiplier, destination)
    }

    constructor(name: string)
      ensures State() == Initial(name)
    {
      this.name := name;
      xposition := 0;
      yposition := 0;
      battery := 100.0;
      command := None;
      supply := None;
      multiplier := 1.0;
      destination := None;
    }

    method SetDestination(x: int, y: int)
      modifies this
      ensures State() == old(State()).(destination := Some((x, y)))
    {
      destination := Some((x, y));
    }

    /** Returns whether the load was accepted. */
    method LoadSupply(s: Supply) returns (ok: bool)
      modifies this
      ensures ok <==> s.weight < 15.0
      ensures State() == Loaded(old(State()), s)
    {
      var mult := WeightToMultiplier(s.weight);
      if mult.None? {
        return false;
      }
      supply := Some(s);
      multiplier := mult.value;
      return true;
    }

    method UnloadSupply()
      modifies this
      ensures State() == Unloaded(old(State()))
    {
      supply := None;
      multiplier := 1.0;
    }

    method SetCommand(direction: CommandArg)
      modifies this
      ensures State() == old(State()).(command := ParseCommand(direction))
    {
      var arg := direction;
      if arg.IntArg? {
        var n := arg.code;
        arg := if n == 1 then TextArg("up") else if n == 2 then TextArg("down")
               else if n == 3 then TextArg("left") else if n == 4 then TextArg("right") else NoArg;
      }
      if arg.NoArg? {
        command := None;
        return;
      }
      var d := Lower(arg.text);
      LowerName(Up);
      LowerName(Down);
      LowerName(Left);
      LowerName(Right);
      command := NameToDirection(d);
    }

    method Update()
      modifies this
      ensures State() == Step(old(State()))
    {
      var dx, dy := 0, 0;
      match command {
        case None => return;
        case Some(d) => dx, dy := DeltaX(d), DeltaY(d);
      }
      var newX, newY := xposition + dx, yposition + dy;
      if 0 <= newX < GridWidth && 0 <= newY < GridHeight {
        xposition, yposition := newX, newY;
        battery := battery - 0.5 * multiplier;
      }
    }
  }
}
