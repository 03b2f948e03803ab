/**
 * The live simulation's hospital floor plan: a 20 x 20 grid of cell kinds,
 * the walkability test, and the department anchors drones fly to.
 * Cells are (row, column) pairs.
 */
module FloorPlan {
  import opened Common

  const GridSize := 20

  // Cell kinds
  const IdHallway := 0
  const IdWall := 1
  const IdHub := 2
  const IdMaternity := 3
  const IdIcu := 4
  const IdWaiting := 5
  const IdEr := 6
  const IdOr := 7

  /** A grid position as (row, column). */
  type Cell = (int, int)

  /** The keys of the anchor table. */
  datatype Department = Hub | Maternity | Icu | WaitingRoom | Er | Or

  /** The department's key as it appears in the anchor table and in log lines. */
  function Name(d: Department): string
  {
    match d
    case Hub => "Hub"
    case Maternity => "Maternity"
    case Icu => "ICU"
    case WaitingRoom => "Waiting Room"
    case Er => "ER"
    case Or => "OR"
  }

  /** The anchor (row, column) of each department. */
  function Target(d: Department): Cell
  {
    match d
    case Hub => (2, 2)
    case Maternity => (14, 2)
    case Icu => (6, 6)
    case WaitingRoom => (2, 16)
    case Er => (10, 16)
    case Or => (18, 15)
  }

  /** The cell kind that paints a department's room. */
  function RoomKind(d: Department): int
  {
    match d
    case Hub => IdHub
    case Maternity => IdMaternity
    case Icu => IdIcu
    case WaitingRoom => IdWaiting
    case Er => IdEr
    case Or => IdOr
  }

  predicate InGrid(r: int, c: int)
  {
    0 <= r < GridSize && 0 <= c < GridSize
  }

  /** One slice assignment `grid[r0:r1, c0:c1] = kind`. */
  datatype Rect = Rect(r0: int, r1: int, c0: int, c1: int, kind: int)
  {
    predicate Covers(r: int, c: int)
    {
      r0 <= r < r1 && c0 <= c < c1
    }
  }

  /** The slice assignments of the floor-plan builder, in the order it performs them. */
  const PlanFills: seq<Rect> := [
    Rect(0, 20, 4, 5, IdHallway),
    Rect(0, 20, 8, 9, IdHallway),
    Rect(0, 20, 12, 13, IdHallway),
    Rect(4, 5, 0, 20, IdHallway),
    Rect(8, 9, 0, 20, IdHallway),
    Rect(12, 13, 0, 20, IdHallway),
    Rect(16, 17, 0, 20, IdHallway),
    Rect(0, 4, 0, 4, IdHub),
    Rect(13, 16, 0, 8, IdMaternity),
    Rect(5, 8, 5, 8, IdIcu),
    Rect(0, 4, 13, 20, IdWaiting),
    Rect(9, 12, 13, 20, IdEr),
    Rect(17, 20, 13, 17, IdOr)
  ]

  /** The kind of cell (r, c) after painting `fills` in order over an all-wall grid: the last fill that covers the cell wins. */
  function Paint(fills: seq<Rect>, r: int, c: int): int
  {
    if fills == [] then IdWall
    else if fills[|fills| - 1].Covers(r, c) then fills[|fills| - 1].kind
    else Paint(fills[..|fills| - 1], r, c)
  }

  /**
   * The finished floor plan in closed form: the rooms (later rooms over earlier
   * ones), then the hallway lines (rows 4, 8, 12, 16 and columns 4, 8, 12),
   * and wall everywhere else.
   */
  function CellKind(r: int, c: int): int
  {
    if 17 <= r < 20 && 13 <= c < 17 then IdOr
    else if 9 <= r < 12 && 13 <= c < 20 then IdEr
    else if 0 <= r < 4 && 13 <= c < 20 then IdWaiting
    else if 5 <= r < 8 && 5 <= c < 8 then IdIcu
    else if 13 <= r < 16 && 0 <= c < 8 then IdMaternity
    else if 0 <= r < 4 && 0 <= c < 4 then IdHub
    else if 0 <= r < 20 && (c == 4 || c == 8 || c == 12) then IdHallway
    else if 0 <= c < 20 && (r == 4 || r == 8 || r == 12 || r == 16) then IdHallway
    else IdWall
  }

  /** `grid` is 20 x 20. */
  predicate IsShape(grid: array2<int>)
  {
    grid.Length0 == GridSize && grid.Length1 == GridSize
  }

  /** `grid` is 20 x 20 and holds the floor plan. */
  ghost predicate IsPlan(grid: array2<int>)
    reads grid
  {
    IsShape(grid) && forall r, c :: 0 <= r < GridSize && 0 <= c < GridSize ==> grid[r, c] == CellKind(r, c)
  }

  /** Every cell of `grid` holds what painting the first `k` plan fills gives. */
  ghost predicate PaintedUpTo(grid: array2<int>, k: nat)
    requires k <= |PlanFills|
    reads grid
  {
    IsShape(grid) && forall r, c :: 0 <= r < GridSize && 0 <= c < GridSize ==> grid[r, c] == Paint(PlanFills[..k], r, c)
  }

  lemma PaintStep(k: nat, r: int, c: int)
    requires k < |PlanFills|
    ensures Paint(PlanFills[..k + 1], r, c) ==
            if PlanFills[k].Covers(r, c) then PlanFills[k].kind else Paint(PlanFills[..k], r, c)
  {
    assert PlanFills[..k + 1][..k] == PlanFills[..k];
  }

  /** Performs slice assignment `k` of the plan on a grid that holds the first `k` of them. */
  method Carve(grid: array2<int>, k: nat)
    requires k < |PlanFills| && PaintedUpTo(grid, k)
    modifies grid
    ensures PaintedUpTo(grid, k + 1)
  {
    var f := PlanFills[k];
    FillRect(grid, f.r0, f.r1, f.c0, f.c1, f.kind);
    forall r, c | 0 <= r < GridSize && 0 <= c < GridSize
      ensures grid[r, c] == Paint(PlanFills[..k + 1], r, c)
    {
      PaintStep(k, r, c);
    }
  }

  /** Painting all the plan's fills gives the closed form, cell by cell. */
  lemma {:induction false} PaintIsCellKind(r: int, c: int)
    requires InGrid(r, c)
    ensures Paint(PlanFills, r, c) == CellKind(r, c)
  {
    var k := |PlanFills|;
    assert PlanFills[..k] == PlanFills;
    PaintStep(12, r, c); PaintStep(11, r, c); PaintStep(10, r, c); PaintStep(9, r, c);
    PaintStep(8, r, c); PaintStep(7, r, c); PaintStep(6, r, c); PaintStep(5, r, c);
    PaintStep(4, r, c); PaintStep(3, r, c); PaintStep(2, r, c); PaintStep(1, r, c);
    PaintStep(0, r, c);
    assert PlanFills[..0] == [];
  }

  /**
   * Builds the floor plan: a 20 x 20 grid of walls, hallway lines carved into it,
   * then the six rooms painted over them.
   */
  method CreateFloorPlan() returns (grid: array2<int>)
    ensures fresh(grid) && IsPlan(grid)
  {
    grid := new int[GridSize, GridSize]((r, c) => IdWall);
    assert PaintedUpTo(grid, 0);
    // hallways: columns 4, 8, 12, then rows 4, 8, 12, 16
    Carve(grid, 0); Carve(grid, 1); Carve(grid, 2);
    Carve(grid, 3); Carve(grid, 4); Carve(grid, 5); Carve(grid, 6);
    // rooms: hub, maternity, ICU, waiting room, ER, OR
    Carve(grid, 7); Carve(grid, 8); Carve(grid, 9);
    Carve(grid, 10); Carve(grid, 11); Carve(grid, 12);
    assert PlanFills[..13] == PlanFills;
    forall r, c | 0 <= r < GridSize && 0 <= c < GridSize
      ensures grid[r, c] == CellKind(r, c)
    {
      PaintIsCellKind(r, c);
    }
  }

  /**
   * A cell is walkable when it lies inside the 20 x 20 grid and is not a wall.
   */
  predicate IsWalkable(grid: array2<int>, r: int, c: int)
    requires IsShape(grid)
    reads grid
  {
    if 0 <= r < GridSize && 0 <= c < GridSize then grid[r, c] != IdWall else false
  }

  /** Two cells are 4-neighbours: one step up, down, left or right. */
  predicate Adjacent(a: Cell, b: Cell)
  {
    (a.0 == b.0 && (a.1 == b.1 + 1 || a.1 + 1 == b.1)) ||
    (a.1 == b.1 && (a.0 == b.0 + 1 || a.0 + 1 == b.0))
  }

  /** The cell a walk from `start` stands on before its step `i`. */
  function Before(start: Cell, steps: seq<Cell>, i: nat): Cell
    requires i < |steps|
  {
    if i == 0 then start else steps[i - 1]
  }

  /** Where a walk from `start` through `steps` ends. */
  function End(start: Cell, steps: seq<Cell>): Cell
  {
    if steps == [] then start else steps[|steps| - 1]
  }

  /**
   * `steps` is a walk from `start`: each step moves to a 4-neighbour of the
   * previous cell, and every cell stepped on is walkable (`start` itself need not be).
   */
  predicate Walk(grid: array2<int>, start: Cell, steps: seq<Cell>)
    requires IsShape(grid)
    reads grid
  {
    forall i :: 0 <= i < |steps| ==> Adjacent(Before(start, steps, i), steps[i]) && IsWalkable(grid, steps[i].0, steps[i].1)
  }

  /** Some walk leads from `a` to `b`. */
  ghost predicate Reachable(grid: array2<int>, a: Cell, b: Cell)
    requires IsShape(grid)
    reads grid
  {
    exists steps :: Walk(grid, a, steps) && End(a, steps) == b
  }

  /** A cell of the plan a drone may fly over: inside the grid and not a wall. */
  predicate OpenCell(p: Cell)
  {
    InGrid(p.0, p.1) && CellKind(p.0, p.1) != IdWall
  }

  /** A hub cell of the plan. */
  predicate HubCell(p: Cell)
  {
    InGrid(p.0, p.1) && CellKind(p.0, p.1) == IdHub
  }

  /** `Walk` on the plan itself, without a grid. */
  predicate PlanWalk(start: Cell, steps: seq<Cell>)
  {
    forall i :: 0 <= i < |steps| ==> Adjacent(Before(start, steps, i), steps[i]) && OpenCell(steps[i])
  }

  /** `Reachable` on the plan itself, without a grid. */
  ghost predicate PlanReachable(a: Cell, b: Cell)
  {
    exists steps :: PlanWalk(a, steps) && End(a, steps) == b
  }

  /** On a grid holding the plan, walks are the plan's walks. */
  lemma PlanWalkIff(grid: array2<int>, start: Cell, steps: seq<Cell>)
    requires IsPlan(grid)
    ensures Walk(grid, start, steps) <==> PlanWalk(start, steps)
  {
    forall i | 0 <= i < |steps|
      ensures IsWalkable(grid, steps[i].0, steps[i].1) <==> OpenCell(steps[i])
    {
      WalkableOnPlan(grid, steps[i].0, steps[i].1);
    }
  }

  /** On a grid holding the plan, reachability is the plan's. */
  lemma PlanReachableIff(grid: array2<int>, a: Cell, b: Cell)
    requires IsPlan(grid)
    ensures Reachable(grid, a, b) <==> PlanReachable(a, b)
  {
    if Reachable(grid, a, b) {
      var s :| Walk(grid, a, s) && End(a, s) == b;
      PlanWalkIff(grid, a, s);
    }
    if PlanReachable(a, b) {
      var s :| PlanWalk(a, s) && End(a, s) == b;
      PlanWalkIff(grid, a, s);
    }
  }

  /** A walk followed by a walk from where it ends is a walk. */
  lemma WalkAppend(grid: array2<int>, a: Cell, s: seq<Cell>, t: seq<Cell>)
    requires IsShape(grid) && Walk(grid, a, s) && Walk(grid, End(a, s), t)
    ensures Walk(grid, a, s + t) && End(a, s + t) == End(End(a, s), t)
  {
    if t == [] {
      assert s + t == s;
      return;
    }
    forall i | 0 <= i < |s + t|
      ensures Adjacent(Before(a, s + t, i), (s + t)[i]) && IsWalkable(grid, (s + t)[i].0, (s + t)[i].1)
    {
      if i < |s| {
        assert (s + t)[i] == s[i];
        assert Before(a, s + t, i) == Before(a, s, i);
      } else {
        assert (s + t)[i] == t[i - |s|];
        assert Before(a, s + t, i) == Before(End(a, s), t, i - |s|);
      }
    }
  }

  lemma ReachableTrans(grid: array2<int>, a: Cell, b: Cell, c: Cell)
    requires IsShape(grid) && Reachable(grid, a, b) && Reachable(grid, b, c)
    ensures Reachable(grid, a, c)
  {
    var s :| Walk(grid, a, s) && End(a, s) == b;
    var t :| Walk(grid, b, t) && End(b, t) == c;
    WalkAppend(grid, a, s, t);
  }

  /** The cells passed moving along row `r` from column `c0` to column `c1` (excluding the first, including the last). */
  function RowRun(r: int, c0: int, c1: int): (run: seq<Cell>)
    ensures End((r, c0), run) == (r, c1)
  {
    if c0 <= c1 then seq(c1 - c0, i => (r, c0 + i + 1)) else seq(c0 - c1, i => (r, c0 - i - 1))
  }

  /** The cells passed moving along column `c` from row `r0` to row `r1`. */
  function ColRun(c: int, r0: int, r1: int): (run: seq<Cell>)
    ensures End((r0, c), run) == (r1, c)
  {
    if r0 <= r1 then seq(r1 - r0, i => (r0 + i + 1, c)) else seq(r0 - r1, i => (r0 - i - 1, c))
  }

  /** On the floor plan, walkability is "inside the grid and not a wall cell" of the closed form. */
  lemma WalkableOnPlan(grid: array2<int>, r: int, c: int)
    requires IsPlan(grid)
    ensures IsWalkable(grid, r, c) <==> InGrid(r, c) && CellKind(r, c) != IdWall
  {
  }

  /** Moving along a line of non-wall plan cells is a walk. */
  lemma RowRunReachable(grid: array2<int>, r: int, c0: int, c1: int)
    requires IsPlan(grid) && 0 <= r < GridSize && 0 <= c0 < GridSize && 0 <= c1 < GridSize
    requires forall c :: (c0 <= c <= c1 || c1 <= c <= c0) ==> CellKind(r, c) != IdWall
    ensures Reachable(grid, (r, c0), (r, c1))
  {
    var run := RowRun(r, c0, c1);
    assert Walk(grid, (r, c0), run);
  }

  lemma ColRunReachable(grid: array2<int>, c: int, r0: int, r1: int)
    requires IsPlan(grid) && 0 <= c < GridSize && 0 <= r0 < GridSize && 0 <= r1 < GridSize
    requires forall r :: (r0 <= r <= r1 || r1 <= r <= r0) ==> CellKind(r, c) != IdWall
    ensures Reachable(grid, (r0, c), (r1, c))
  {
    var run := ColRun(c, r0, r1);
    assert Walk(grid, (r0, c), run);
  }

  /**
   * Every department anchor can be reached from the hub anchor: the hub opens onto
   * hallway row 4, and every room touches a hallway line.
   */
  lemma {:induction false} AnchorsReachable(grid: array2<int>, d: Department)
    requires IsPlan(grid)
    ensures Reachable(grid, Target(Hub), Target(d))
  {
    var hub := Target(Hub);
    // out of the hub, down column 2 onto hallway row 4
    ColRunReachable(grid, 2, 2, 4);
    match d {
      case Hub =>
        assert Walk(grid, hub, []);
      case Maternity =>
        RowRunReachable(grid, 4, 2, 4);
        ColRunReachable(grid, 4, 4, 14);
        RowRunReachable(grid, 14, 4, 2);
        ReachableTrans(grid, hub, (4, 2), (4, 4));
        ReachableTrans(grid, hub, (4, 4), (14, 4));
        ReachableTrans(grid, hub, (14, 4), (14, 2));
      case Icu =>
        RowRunReachable(grid, 4, 2, 6);
        ColRunReachable(grid, 6, 4, 6);
        ReachableTrans(grid, hub, (4, 2), (4, 6));
        ReachableTrans(grid, hub, (4, 6), (6, 6));
      case WaitingRoom =>
        RowRunReachable(grid, 4, 2, 16);
        ColRunReachable(grid, 16, 4, 2);
        ReachableTrans(grid, hub, (4, 2), (4, 16));
        ReachableTrans(grid, hub, (4, 16), (2, 16));
      case Er =>
        RowRunReachable(grid, 4, 2, 12);
        ColRunReachable(grid, 12, 4, 10);
        RowRunReachable(grid, 10, 12, 16);
        ReachableTrans(grid, hub, (4, 2), (4, 12));
        ReachableTrans(grid, hub, (4, 12), (10, 12));
        ReachableTrans(grid, hub, (10, 12), (10, 16));
      case Or =>
        RowRunReachable(grid, 4, 2, 12);
        ColRunReachable(grid, 12, 4, 16);
        RowRunReachable(grid, 16, 12, 15);
        ColRunReachable(grid, 15, 16, 18);
        ReachableTrans(grid, hub, (4, 2), (4, 12));
        ReachableTrans(grid, hub, (4, 12), (16, 12));
        ReachableTrans(grid, hub, (16, 12), (16, 15));
        ReachableTrans(grid, hub, (16, 15), (18, 15));
    }
  }

  /** Painting only hallway and room kinds (0..7) over walls leaves every cell's kind in 0..7. */
  lemma {:induction false} PaintInRange(fills: seq<Rect>, r: int, c: int)
    requires forall i :: 0 <= i < |fills| ==> 0 <= fills[i].kind <= 7
    ensures 0 <= Paint(fills, r, c) <= 7
  {
    if fills != [] && !fills[|fills| - 1].Covers(r, c) {
      PaintInRange(fills[..|fills| - 1], r, c);
    }
  }

  /** Every cell of the built plan holds one of the eight kinds. */
  lemma PlanKindsInRange(grid: array2<int>, r: int, c: int)
    requires IsPlan(grid) && InGrid(r, c)
    ensures 0 <= grid[r, c] <= 7
  {
    PaintIsCellKind(r, c);
    PaintInRange(PlanFills, r, c);
  }

  /**
   * The hallway lines: rows 4, 8, 12, 16 and columns 8, 12 are hallway end to end;
   * column 4 is hallway except rows 13 to 15, which the maternity room covers and
   * which stay walkable.
   */
  lemma HallwayLines(r: int, c: int)
    requires InGrid(r, c)
    ensures r == 4 || r == 8 || r == 12 || r == 16 || c == 8 || c == 12 ==> CellKind(r, c) == IdHallway
    ensures c == 4 ==> CellKind(r, c) == if 13 <= r <= 15 then IdMaternity else IdHallway
  {
  }

  /** Each anchor lies on a cell of its own room, hence on a walkable cell. */
  lemma AnchorInOwnRoom(grid: array2<int>, d: Department)
    requires IsPlan(grid)
    ensures CellKind(Target(d).0, Target(d).1) == RoomKind(d)
    ensures IsWalkable(grid, Target(d).0, Target(d).1)
  {
  }

  /** From every hub cell the hub anchor is reachable: along its column to row 2, then along row 2. */
  lemma HubCellReachesAnchor(grid: array2<int>, p: Cell)
    requires IsPlan(grid) && InGrid(p.0, p.1) && grid[p.0, p.1] == IdHub
    ensures Reachable(grid, p, Target(Hub))
  {
    HubRegion(p.0, p.1);
    ColRunReachable(grid, p.1, p.0, 2);
    RowRunReachable(grid, 2, p.1, 2);
    ReachableTrans(grid, p, (2, p.1), (2, 2));
  }

  /** The hub cells are exactly rows 0..3 by columns 0..3. */
  lemma HubRegion(r: int, c: int)
    requires InGrid(r, c)
    ensures CellKind(r, c) == IdHub <==> 0 <= r < 4 && 0 <= c < 4
  {
  }
}
