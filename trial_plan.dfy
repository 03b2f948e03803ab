/**
 * The trial simulation's hospital: a 20 x 20 grid of region kinds indexed
 * [y, x], the region centres drones fly to, the walkability rule of its
 * searches, and the breadth-first search that plans a delivery route.
 * Positions are (x, y) pairs.
 */
module TrialPlan {
  import opened Common

  const Width := 20
  const Height := 20

  /** What a cell of the plan holds: hallway or one of the seven regions. */
  datatype Kind = Hall | Hub | Waiting | Icu | Er | Maternity | Or | Rooms

  /** The keys of the region-centre table: every kind but the hallway. */
  type Region = k: Kind | k != Hall witness Hub

  /** A grid position as (x, y). */
  type Pos = (int, int)

  /** The centre of each region, as (x, y). */
  function Center(r: Region): Pos
  {
    match r
    case Hub => (1, 1)
    case Waiting => (15, 1)
    case Icu => (5, 5)
    case Er => (15, 9)
    case Maternity => (3, 13)
    case Or => (13, 17)
    case Rooms => (17, 17)
  }

  /** One room of the builder: `plan[y][x] = kind` for `x0 <= x < x1` and `y0 <= y < y1`. */
  datatype Room = Room(kind: Region, x0: int, x1: int, y0: int, y1: int)
  {
    predicate Covers(x: int, y: int)
    {
      x0 <= x < x1 && y0 <= y < y1
    }
  }

  /** The rooms the builder paints over an all-hallway grid, in its order. */
  const RoomFills: seq<Room> := [
    Room(Hub, 0, 4, 0, 4),
    Room(Waiting, 12, 20, 0, 4),
    Room(Icu, 4, 8, 4, 8),
    Room(Er, 12, 20, 8, 12),
    Room(Maternity, 0, 8, 12, 16),
    Room(Or, 12, 16, 16, 20),
    Room(Rooms, 16, 20, 16, 20)
  ]

  /** The kind of (x, y) after painting `fills` in order over hallway: the last room covering it wins. */
  function Paint(fills: seq<Room>, x: int, y: int): Kind
  {
    if fills == [] then Hall
    else if fills[|fills| - 1].Covers(x, y) then fills[|fills| - 1].kind
    else Paint(fills[..|fills| - 1], x, y)
  }

  /** The finished plan in closed form: the seven rooms do not overlap, and the rest is hallway. */
  function PlanKind(x: int, y: int): Kind
  {
    if 0 <= x < 4 && 0 <= y < 4 then Hub
    else if 12 <= x < 20 && 0 <= y < 4 then Waiting
    else if 4 <= x < 8 && 4 <= y < 8 then Icu
    else if 12 <= x < 20 && 8 <= y < 12 then Er
    else if 0 <= x < 8 && 12 <= y < 16 then Maternity
    else if 12 <= x < 16 && 16 <= y < 20 then Or
    else if 16 <= x < 20 && 16 <= y < 20 then Rooms
    else Hall
  }

  predicate InBounds(p: Pos)
  {
    0 <= p.0 < Width && 0 <= p.1 < Height
  }

  /** `grid` has 20 rows (y) of 20 cells (x). */
  predicate IsShape(grid: array2<Kind>)
  {
    grid.Length0 == Height && grid.Length1 == Width
  }

  /** `grid` is 20 x 20 and holds the floor plan. */
  ghost predicate IsPlan(grid: array2<Kind>)
    reads grid
  {
    IsShape(grid) && forall y, x :: 0 <= y < Height && 0 <= x < Width ==> grid[y, x] == PlanKind(x, y)
  }

  /** Every cell of `grid` holds what painting the first `k` rooms gives. */
  ghost predicate PaintedUpTo(grid: array2<Kind>, k: nat)
    requires k <= |RoomFills|
    reads grid
  {
    IsShape(grid) && forall y, x :: 0 <= y < Height && 0 <= x < Width ==> grid[y, x] == Paint(RoomFills[..k], x, y)
  }

  lemma PaintStep(k: nat, x: int, y: int)
    requires k < |RoomFills|
    ensures Paint(RoomFills[..k + 1], x, y) ==
            if RoomFills[k].Covers(x, y) then RoomFills[k].kind else Paint(RoomFills[..k], x, y)
  {
    assert RoomFills[..k + 1][..k] == RoomFills[..k];
  }

  /** Paints room `k` on a grid that holds the first `k` rooms: the builder's two nested loops. */
  method PaintRoom(grid: array2<Kind>, k: nat)
    requires k < |RoomFills| && PaintedUpTo(grid, k)
    modifies grid
    ensures PaintedUpTo(grid, k + 1)
  {
    var f := RoomFills[k];
    FillRect(grid, f.y0, f.y1, f.x0, f.x1, f.kind);
    forall y, x | 0 <= y < Height && 0 <= x < Width
      ensures grid[y, x] == Paint(RoomFills[..k + 1], x, y)
    {
      PaintStep(k, x, y);
    }
  }

  /** Painting all seven rooms gives the closed form, cell by cell. */
  lemma {:induction false} PaintIsPlanKind(x: int, y: int)
    ensures Paint(RoomFills, x, y) == PlanKind(x, y)
  {
    assert RoomFills[..7] == RoomFills;
    PaintStep(6, x, y); PaintStep(5, x, y); PaintStep(4, x, y); PaintStep(3, x, y);
    PaintStep(2, x, y); PaintStep(1, x, y); PaintStep(0, x, y);
    assert RoomFills[..0] == [];
  }

  /** Builds the plan: all hallway, then the hub, waiting room, ICU, ER, maternity, OR and rooms painted on it. */
  method BuildFloorPlan() returns (grid: array2<Kind>)
    ensures fresh(grid) && IsPlan(grid)
  {
    grid := new Kind[Height, Width]((y, x) => Hall);
    assert PaintedUpTo(grid, 0);
    for k := 0 to |RoomFills|
      invariant PaintedUpTo(grid, k)
    {
      PaintRoom(grid, k);
    }
    assert RoomFills[..7] == RoomFills;
    forall y, x | 0 <= y < Height && 0 <= x < Width
      ensures grid[y, x] == PlanKind(x, y)
    {
      PaintIsPlanKind(x, y);
    }
  }

  /** Every region's centre lies inside that region on the plan. */
  lemma CenterInRegion(r: Region)
    ensures InBounds(Center(r)) && PlanKind(Center(r).0, Center(r).1) == r
  {
  }

  /**
   * During a search that starts in region `startRegion` and heads for
   * `goalRegion`, a cell may be entered when it is hallway or belongs to one
   * of those two regions.
   */
  predicate IsWalkable(cell: Kind, startRegion: Kind, goalRegion: Kind)
  {
    cell == Hall || cell == startRegion || cell == goalRegion
  }

  /** `p` is inside the grid and walkable for the given pair of regions. */
  predicate Open(grid: array2<Kind>, sr: Kind, gr: Kind, p: Pos)
    requires IsShape(grid)
    reads grid
  {
    InBounds(p) && IsWalkable(grid[p.1, p.0], sr, gr)
  }

  /** Two positions are 4-neighbours. */
  predicate Adjacent(a: Pos, b: Pos)
  {
    (a.1 == b.1 && (a.0 == b.0 + 1 || a.0 + 1 == b.0)) ||
    (a.0 == b.0 && (a.1 == b.1 + 1 || a.1 + 1 == b.1))
  }

  /** The search's neighbour offsets (dx, dy), in the order it tries them. */
  const Dirs: seq<(int, int)> := [(1, 0), (-1, 0), (0, 1), (0, -1)]

  function Neighbor(p: Pos, i: int): Pos
    requires 0 <= i < 4
  {
    (p.0 + Dirs[i].0, p.1 + Dirs[i].1)
  }

  /** The four offsets give exactly the 4-neighbours. */
  lemma AdjacentIsNeighbor(a: Pos, b: Pos) returns (i: int)
    requires Adjacent(a, b)
    ensures 0 <= i < 4 && b == Neighbor(a, i)
  {
    i := if b.0 == a.0 + 1 then 0 else if b.0 + 1 == a.0 then 1 else if b.1 == a.1 + 1 then 2 else 3;
  }

  function Last(path: seq<Pos>): Pos
    requires path != []
  {
    path[|path| - 1]
  }

  /**
   * `path` is a route from `start`, as the search builds them: it begins with
   * `start` itself, and every later position is an open 4-neighbour of the one
   * before it (the start need not be open).
   */
  predicate Route(grid: array2<Kind>, sr: Kind, gr: Kind, start: Pos, path: seq<Pos>)
    requires IsShape(grid)
    reads grid
  {
    |path| >= 1 && path[0] == start &&
    forall i :: 1 <= i < |path| ==> Adjacent(path[i - 1], path[i]) && Open(grid, sr, gr, path[i])
  }

  /** Some route leads from `a` to `b`. */
  ghost predicate Connected(grid: array2<Kind>, sr: Kind, gr: Kind, a: Pos, b: Pos)
    requires IsShape(grid)
    reads grid
  {
    exists path :: Route(grid, sr, gr, a, path) && Last(path) == b
  }

  /** The regions a search from `start` to `goal` may cross: those the two end cells lie in. */
  function StartRegion(grid: array2<Kind>, start: Pos): Kind
    requires IsShape(grid) && InBounds(start)
    reads grid
  {
    grid[start.1, start.0]
  }

  /** `path` is a route from `start` to `goal` and no route between them is shorter. */
  ghost predicate ShortestRoute(grid: array2<Kind>, start: Pos, goal: Pos, path: seq<Pos>)
    requires IsShape(grid) && InBounds(start) && InBounds(goal)
    reads grid
  {
    var sr, gr := StartRegion(grid, start), StartRegion(grid, goal);
    Route(grid, sr, gr, start, path) && Last(path) == goal &&
    forall q :: Route(grid, sr, gr, start, q) && Last(q) == goal ==> |path| <= |q|
  }

  // ----- Breadth-first search -----

  ghost predicate InQueue(queue: seq<(Pos, seq<Pos>)>, v: Pos)
  {
    exists k :: 0 <= k < |queue| && queue[k].0 == v
  }

  /** Every open neighbour of `u` has been visited, with a path at most one longer than `u`'s. */
  ghost predicate Expanded(grid: array2<Kind>, sr: Kind, gr: Kind, len: map<Pos, nat>, u: Pos)
    requires IsShape(grid) && u in len
    reads grid
  {
    forall i :: 0 <= i < 4 && Open(grid, sr, gr, Neighbor(u, i)) ==>
      Neighbor(u, i) in len && len[Neighbor(u, i)] <= len[u] + 1
  }

  /** Every finished position is visited and expanded. */
  ghost predicate AllExpanded(grid: array2<Kind>, sr: Kind, gr: Kind, len: map<Pos, nat>, done: set<Pos>)
    requires IsShape(grid)
    reads grid
  {
    forall u :: u in done ==> u in len && Expanded(grid, sr, gr, len, u)
  }

  /** Every visited position outside `held` is queued. */
  ghost predicate Covered(queue: seq<(Pos, seq<Pos>)>, len: map<Pos, nat>, held: set<Pos>)
  {
    forall v :: v in len && v !in held ==> InQueue(queue, v)
  }

  /** No visited position was reached with a path longer than `hi`. */
  ghost predicate Bounded(len: map<Pos, nat>, hi: int)
  {
    forall v :: v in len ==> len[v] <= hi
  }

  /**
   * The queued routes: each starts at `start` and ends at its position, which
   * is visited, outside `held`, and recorded with the route's length; the
   * positions are distinct, and the lengths grow along the queue from `lo` to
   * at most `lo + 1`.
   */
  ghost predicate QueueOk(grid: array2<Kind>, sr: Kind, gr: Kind, start: Pos, queue: seq<(Pos, seq<Pos>)>,
                          len: map<Pos, nat>, held: set<Pos>, lo: int)
    requires IsShape(grid)
    reads grid
  {
    (forall k :: 0 <= k < |queue| ==>
       queue[k].0 in len && queue[k].0 !in held && Route(grid, sr, gr, start, queue[k].1) &&
       Last(queue[k].1) == queue[k].0 && |queue[k].1| == len[queue[k].0] && lo <= len[queue[k].0] <= lo + 1) &&
    (forall a, b :: 0 <= a < b < |queue| ==> len[queue[a].0] <= len[queue[b].0] && queue[a].0 != queue[b].0)
  }

  /**
   * The frontier argument: with every finished position expanded and every
   * other visited position queued, any route from the start either ends on a
   * finished position whose recorded path is no longer, or is at least as long
   * as some queued path.
   */
  lemma {:induction false} Frontier(grid: array2<Kind>, sr: Kind, gr: Kind, start: Pos, len: map<Pos, nat>,
                                    done: set<Pos>, queue: seq<(Pos, seq<Pos>)>, q: seq<Pos>)
    requires IsShape(grid) && start in len && len[start] == 1
    requires Covered(queue, len, done) && AllExpanded(grid, sr, gr, len, done)
    requires forall k :: 0 <= k < |queue| ==> queue[k].0 in len
    requires Route(grid, sr, gr, start, q)
    ensures (Last(q) in done && Last(q) in len && len[Last(q)] <= |q|) ||
            exists k :: 0 <= k < |queue| && len[queue[k].0] <= |q|
  {
    if |q| == 1 {
      if start !in done {
        var k :| 0 <= k < |queue| && queue[k].0 == start;
      }
      return;
    }
    var p := q[..|q| - 1];
    assert Route(grid, sr, gr, start, p);
    Frontier(grid, sr, gr, start, len, done, queue, p);
    var u, v := Last(p), Last(q);
    if u in done && u in len && len[u] <= |p| {
      var i := AdjacentIsNeighbor(u, v);
      assert Open(grid, sr, gr, v);
      if v !in done {
        var k :| 0 <= k < |queue| && queue[k].0 == v;
      }
    }
  }

  /** Extending a route by an open neighbour of its end is a route. */
  lemma RouteExtend(grid: array2<Kind>, sr: Kind, gr: Kind, start: Pos, path: seq<Pos>, v: Pos)
    requires IsShape(grid) && Route(grid, sr, gr, start, path)
    requires Adjacent(Last(path), v) && Open(grid, sr, gr, v)
    ensures Route(grid, sr, gr, start, path + [v]) && Last(path + [v]) == v
  {
  }

  /**
   * The state of the search between two pops: `len` records, for every
   * visited position, the length of the path it was queued with; every
   * visited position is finished or queued; finished positions are expanded,
   * and the goal is not among them.
   */
  ghost predicate SearchInv(grid: array2<Kind>, sr: Kind, gr: Kind, start: Pos, goal: Pos,
                            queue: seq<(Pos, seq<Pos>)>, visited: set<Pos>, len: map<Pos, nat>, done: set<Pos>)
    requires IsShape(grid)
    reads grid
  {
    visited == len.Keys && start in len && len[start] == 1 && goal !in done &&
    (queue != [] ==> queue[0].0 in len && QueueOk(grid, sr, gr, start, queue, len, done, len[queue[0].0]) &&
                     Bounded(len, len[queue[0].0] + 1)) &&
    Covered(queue, len, done) && AllExpanded(grid, sr, gr, len, done)
  }

  /**
   * The breadth-first search from `start` to `goal`. It returns the route
   * found first: a shortest one through hallway and the two end regions, or
   * None exactly when there is no such route.
   */
  method BfsShortestPath(grid: array2<Kind>, start: Pos, goal: Pos) returns (path: Option<seq<Pos>>)
    requires IsShape(grid) && InBounds(start) && InBounds(goal)
    ensures path.Some? ==> ShortestRoute(grid, start, goal, path.value)
    ensures path.None? <==> !Connected(grid, StartRegion(grid, start), StartRegion(grid, goal), start, goal)
    ensures start == goal ==> path == Some([start])
  {
    var sr, gr := grid[start.1, start.0], grid[goal.1, goal.0];
    var queue: seq<(Pos, seq<Pos>)> := [(start, [start])];
    var visited: set<Pos> := {start};
    ghost var len: map<Pos, nat> := map[start := 1];
    ghost var done: set<Pos> := {};
    assert queue[0].0 == start;
    while queue != []
      invariant SearchInv(grid, sr, gr, start, goal, queue, visited, len, done)
      invariant start == goal ==> queue == [(start, [start])]
      decreases 2 * Missing(AllCells, len) + |queue|
    {
      var cur, curPath := queue[0].0, queue[0].1;
      if cur == goal {
        forall q | Route(grid, sr, gr, start, q) && Last(q) == goal
          ensures |curPath| <= |q|
        {
          Frontier(grid, sr, gr, start, len, done, queue, q);
        }
        return Some(curPath);
      }
      queue, visited, len := Expand(grid, sr, gr, start, goal, queue, visited, len, done);
      done := done + {cur};
    }
    forall q | Route(grid, sr, gr, start, q)
      ensures Last(q) != goal
    {
      Frontier(grid, sr, gr, start, len, done, queue, q);
    }
    return None;
  }

  /** Every open neighbour of `cur` among the first `n` offsets has been visited, with a path at most one longer. */
  ghost predicate ExpandedUpTo(grid: array2<Kind>, sr: Kind, gr: Kind, len: map<Pos, nat>, cur: Pos, n: int)
    requires IsShape(grid) && cur in len && n <= 4
    reads grid
  {
    forall i :: 0 <= i < n && Open(grid, sr, gr, Neighbor(cur, i)) ==>
      Neighbor(cur, i) in len && len[Neighbor(cur, i)] <= len[cur] + 1
  }

  /**
   * The state of the search while the neighbours of the popped position `cur`
   * are examined: as `SearchInv`, with `cur` neither queued nor finished, and
   * every queued path as long as `cur`'s or one longer.
   */
  ghost predicate Level(grid: array2<Kind>, sr: Kind, gr: Kind, start: Pos, goal: Pos, cur: Pos, curPath: seq<Pos>,
                        queue: seq<(Pos, seq<Pos>)>, visited: set<Pos>, len: map<Pos, nat>, done: set<Pos>)
    requires IsShape(grid)
    reads grid
  {
    visited == len.Keys && cur in len && len[cur] == |curPath| && start in len && len[start] == 1 &&
    Route(grid, sr, gr, start, curPath) && Last(curPath) == cur && goal !in done && cur !in done &&
    QueueOk(grid, sr, gr, start, queue, len, done + {cur}, len[cur]) && Bounded(len, len[cur] + 1) &&
    Covered(queue, len, done + {cur}) && AllExpanded(grid, sr, gr, len, done)
  }

  /** Dropping the first queued route keeps the rest well formed, with its position now held. */
  lemma QueuePop(grid: array2<Kind>, sr: Kind, gr: Kind, start: Pos, queue: seq<(Pos, seq<Pos>)>,
                 len: map<Pos, nat>, done: set<Pos>, lo: int)
    requires IsShape(grid) && queue != [] && QueueOk(grid, sr, gr, start, queue, len, done, lo)
    ensures QueueOk(grid, sr, gr, start, queue[1..], len, done + {queue[0].0}, lo)
    ensures Route(grid, sr, gr, start, queue[0].1) && Last(queue[0].1) == queue[0].0
  {
    var rest := queue[1..];
    assert forall k :: 0 <= k < |rest| ==> rest[k] == queue[k + 1];
  }

  /** Once the first queued position is popped, every visited position but it and the finished ones is still queued. */
  lemma CoveredPop(queue: seq<(Pos, seq<Pos>)>, len: map<Pos, nat>, done: set<Pos>)
    requires queue != [] && Covered(queue, len, done)
    ensures Covered(queue[1..], len, done + {queue[0].0})
  {
    var rest := queue[1..];
    forall v | v in len && v !in done + {queue[0].0}
      ensures InQueue(rest, v)
    {
      var k :| 0 <= k < |queue| && queue[k].0 == v;
      assert rest[k - 1].0 == v;
    }
  }

  /** Popping the first queued route, when it does not end at the goal, starts a level. */
  lemma Pop(grid: array2<Kind>, sr: Kind, gr: Kind, start: Pos, goal: Pos, queue: seq<(Pos, seq<Pos>)>,
            visited: set<Pos>, len: map<Pos, nat>, done: set<Pos>)
    requires IsShape(grid) && SearchInv(grid, sr, gr, start, goal, queue, visited, len, done)
    requires queue != [] && queue[0].0 != goal
    ensures Level(grid, sr, gr, start, goal, queue[0].0, queue[0].1, queue[1..], visited, len, done)
  {
    QueuePop(grid, sr, gr, start, queue, len, done, len[queue[0].0]);
    CoveredPop(queue, len, done);
  }

  /** Once all four neighbours of `cur` are examined, `cur` is finished and the search invariant holds again. */
  lemma Finish(grid: array2<Kind>, sr: Kind, gr: Kind, start: Pos, goal: Pos, cur: Pos, curPath: seq<Pos>,
               queue: seq<(Pos, seq<Pos>)>, visited: set<Pos>, len: map<Pos, nat>, done: set<Pos>)
    requires IsShape(grid) && Level(grid, sr, gr, start, goal, cur, curPath, queue, visited, len, done)
    requires ExpandedUpTo(grid, sr, gr, len, cur, 4) && cur != goal
    ensures SearchInv(grid, sr, gr, start, goal, queue, visited, len, done + {cur})
  {
    assert Expanded(grid, sr, gr, len, cur);
    if queue != [] {
      assert len[cur] <= len[queue[0].0];
    }
  }

  /** Queuing a route to a position not yet visited keeps the queue well formed. */
  lemma QueueAdd(grid: array2<Kind>, sr: Kind, gr: Kind, start: Pos, queue: seq<(Pos, seq<Pos>)>,
                 len: map<Pos, nat>, held: set<Pos>, lo: int, next: Pos, path: seq<Pos>)
    requires IsShape(grid) && QueueOk(grid, sr, gr, start, queue, len, held, lo)
    requires next !in len && next !in held && Route(grid, sr, gr, start, path) && Last(path) == next
    requires |path| == lo + 1
    ensures QueueOk(grid, sr, gr, start, queue + [(next, path)], len[next := |path|], held, lo)
  {
    var queue' := queue + [(next, path)];
    assert forall k :: 0 <= k < |queue| ==> queue'[k] == queue[k];
  }

  /** Queuing a newly visited position keeps every visited position outside `held` queued. */
  lemma CoveredAdd(queue: seq<(Pos, seq<Pos>)>, len: map<Pos, nat>, held: set<Pos>, next: Pos, path: seq<Pos>, c: nat)
    requires Covered(queue, len, held)
    ensures Covered(queue + [(next, path)], len[next := c], held)
  {
    var queue' := queue + [(next, path)];
    forall v | v in len[next := c] && v !in held
      ensures InQueue(queue', v)
    {
      if v == next {
        assert queue'[|queue|].0 == v;
      } else {
        var k :| 0 <= k < |queue| && queue[k].0 == v;
        assert queue'[k].0 == v;
      }
    }
  }

  /** Recording a newly visited position keeps every finished position expanded. */
  lemma ExpandedAdd(grid: array2<Kind>, sr: Kind, gr: Kind, len: map<Pos, nat>, done: set<Pos>, next: Pos, c: nat)
    requires IsShape(grid) && AllExpanded(grid, sr, gr, len, done) && next !in len
    ensures AllExpanded(grid, sr, gr, len[next := c], done)
  {
    forall u | u in done
      ensures u in len[next := c] && Expanded(grid, sr, gr, len[next := c], u)
    {
      assert Expanded(grid, sr, gr, len, u);
    }
  }

  /** Visiting an unvisited open neighbour of `cur`, queued with `curPath` extended by it, keeps the level's invariant. */
  lemma LevelAdd(grid: array2<Kind>, sr: Kind, gr: Kind, start: Pos, goal: Pos, cur: Pos, curPath: seq<Pos>,
                 queue: seq<(Pos, seq<Pos>)>, visited: set<Pos>, len: map<Pos, nat>, done: set<Pos>, i: int)
    requires IsShape(grid) && 0 <= i < 4 && Level(grid, sr, gr, start, goal, cur, curPath, queue, visited, len, done)
    requires ExpandedUpTo(grid, sr, gr, len, cur, i)
    requires Open(grid, sr, gr, Neighbor(cur, i)) && Neighbor(cur, i) !in visited
    ensures var next := Neighbor(cur, i);
      var len' := len[next := |curPath| + 1];
      Level(grid, sr, gr, start, goal, cur, curPath, queue + [(next, curPath + [next])], visited + {next}, len', done) &&
      ExpandedUpTo(grid, sr, gr, len', cur, i + 1) &&
      2 * Missing(AllCells, len') + |queue| + 1 <= 2 * Missing(AllCells, len) + |queue|
  {
    var next := Neighbor(cur, i);
    var path := curPath + [next];
    RouteExtend(grid, sr, gr, start, curPath, next);
    QueueAdd(grid, sr, gr, start, queue, len, done + {cur}, |curPath|, next, path);
    CoveredAdd(queue, len, done + {cur}, next, path, |path|);
    ExpandedAdd(grid, sr, gr, len, done, next, |path|);
    InAllCells(next);
    MissingRecord(AllCells, len, next, |path|);
  }

  /**
   * Examines the neighbour of `cur` at offset `i`: when it is inside the grid,
   * walkable and not yet visited, marks it visited and queues it with
   * `curPath` extended by it.
   */
  method Visit(grid: array2<Kind>, sr: Kind, gr: Kind, start: Pos, goal: Pos, cur: Pos, curPath: seq<Pos>, i: int,
               queue0: seq<(Pos, seq<Pos>)>, visited0: set<Pos>, ghost len0: map<Pos, nat>, ghost done: set<Pos>)
    returns (queue: seq<(Pos, seq<Pos>)>, visited: set<Pos>, ghost len: map<Pos, nat>)
    requires IsShape(grid) && 0 <= i < 4 && Level(grid, sr, gr, start, goal, cur, curPath, queue0, visited0, len0, done)
    requires ExpandedUpTo(grid, sr, gr, len0, cur, i)
    ensures Level(grid, sr, gr, start, goal, cur, curPath, queue, visited, len, done)
    ensures ExpandedUpTo(grid, sr, gr, len, cur, i + 1)
    ensures 2 * Missing(AllCells, len) + |queue| <= 2 * Missing(AllCells, len0) + |queue0|
  {
    queue, visited, len := queue0, visited0, len0;
    var next := Neighbor(cur, i);
    if 0 <= next.0 < Width && 0 <= next.1 < Height {
      var cell := grid[next.1, next.0];
      if IsWalkable(cell, sr, gr) && next !in visited {
        LevelAdd(grid, sr, gr, start, goal, cur, curPath, queue, visited, len, done, i);
        visited := visited + {next};
        queue := queue + [(next, curPath + [next])];
        len := len[next := |curPath| + 1];
        return;
      }
    }
    ExpandedSkip(grid, sr, gr, len, cur, i);
  }

  /** A neighbour that is closed or already visited needs no work: the offsets examined so far grow by one. */
  lemma ExpandedSkip(grid: array2<Kind>, sr: Kind, gr: Kind, len: map<Pos, nat>, cur: Pos, i: int)
    requires IsShape(grid) && 0 <= i < 4 && cur in len && ExpandedUpTo(grid, sr, gr, len, cur, i)
    requires Bounded(len, len[cur] + 1)
    requires !Open(grid, sr, gr, Neighbor(cur, i)) || Neighbor(cur, i) in len
    ensures ExpandedUpTo(grid, sr, gr, len, cur, i + 1)
  {
  }

  /** Pops the first queued route, which does not end at the goal, and queues the unvisited open neighbours of its end. */
  method Expand(grid: array2<Kind>, sr: Kind, gr: Kind, start: Pos, goal: Pos, queue0: seq<(Pos, seq<Pos>)>,
                visited0: set<Pos>, ghost len0: map<Pos, nat>, ghost done: set<Pos>)
    returns (queue: seq<(Pos, seq<Pos>)>, visited: set<Pos>, ghost len: map<Pos, nat>)
    requires IsShape(grid) && SearchInv(grid, sr, gr, start, goal, queue0, visited0, len0, done)
    requires queue0 != [] && queue0[0].0 != goal
    ensures SearchInv(grid, sr, gr, start, goal, queue, visited, len, done + {queue0[0].0})
    ensures 2 * Missing(AllCells, len) + |queue| < 2 * Missing(AllCells, len0) + |queue0|
  {
    var cur, curPath := queue0[0].0, queue0[0].1;
    Pop(grid, sr, gr, start, goal, queue0, visited0, len0, done);
    queue, visited, len := queue0[1..], visited0, len0;
    for i := 0 to 4
      invariant Level(grid, sr, gr, start, goal, cur, curPath, queue, visited, len, done)
      invariant ExpandedUpTo(grid, sr, gr, len, cur, i)
      invariant 2 * Missing(AllCells, len) + |queue| < 2 * Missing(AllCells, len0) + |queue0|
    {
      queue, visited, len := Visit(grid, sr, gr, start, goal, cur, curPath, i, queue, visited, len, done);
    }
    Finish(grid, sr, gr, start, goal, cur, curPath, queue, visited, len, done);
  }

  // ----- Every region centre can be reached from the hub -----

  /** Routes from `a` to `b` and from `b` to `c` join into a route from `a` to `c`. */
  lemma ConnectedTrans(grid: array2<Kind>, sr: Kind, gr: Kind, a: Pos, b: Pos, c: Pos)
    requires IsShape(grid) && Connected(grid, sr, gr, a, b) && Connected(grid, sr, gr, b, c)
    ensures Connected(grid, sr, gr, a, c)
  {
    var p :| Route(grid, sr, gr, a, p) && Last(p) == b;
    var q :| Route(grid, sr, gr, b, q) && Last(q) == c;
    var r := p + q[1..];
    assert Route(grid, sr, gr, a, r) by {
      forall i | 1 <= i < |r|
        ensures Adjacent(r[i - 1], r[i]) && Open(grid, sr, gr, r[i])
      {
        if i >= |p| {
          assert r[i] == q[i - |p| + 1];
          assert r[i - 1] == q[i - |p|];
        }
      }
    }
    assert Last(r) == c;
  }

  /** A single step to an open 4-neighbour is a route. */
  lemma StepConnected(grid: array2<Kind>, sr: Kind, gr: Kind, a: Pos, b: Pos)
    requires IsShape(grid) && Adjacent(a, b) && Open(grid, sr, gr, b)
    ensures Connected(grid, sr, gr, a, b)
  {
    assert Route(grid, sr, gr, a, [a, b]);
  }

  /** Moving along row `y` from `x0` to `x1` over open positions is a route. */
  lemma {:induction false} RowConnected(grid: array2<Kind>, sr: Kind, gr: Kind, y: int, x0: int, x1: int)
    requires IsShape(grid)
    requires forall x :: (x0 <= x <= x1 || x1 <= x <= x0) ==> Open(grid, sr, gr, (x, y))
    ensures Connected(grid, sr, gr, (x0, y), (x1, y))
    decreases if x0 <= x1 then x1 - x0 else x0 - x1
  {
    if x0 == x1 {
      assert Route(grid, sr, gr, (x0, y), [(x0, y)]);
    } else {
      var x := if x0 < x1 then x1 - 1 else x1 + 1;
      RowConnected(grid, sr, gr, y, x0, x);
      StepConnected(grid, sr, gr, (x, y), (x1, y));
      ConnectedTrans(grid, sr, gr, (x0, y), (x, y), (x1, y));
    }
  }

  /** Moving along column `x` from `y0` to `y1` over open positions is a route. */
  lemma {:induction false} ColConnected(grid: array2<Kind>, sr: Kind, gr: Kind, x: int, y0: int, y1: int)
    requires IsShape(grid)
    requires forall y :: (y0 <= y <= y1 || y1 <= y <= y0) ==> Open(grid, sr, gr, (x, y))
    ensures Connected(grid, sr, gr, (x, y0), (x, y1))
    decreases if y0 <= y1 then y1 - y0 else y0 - y1
  {
    if y0 == y1 {
      assert Route(grid, sr, gr, (x, y0), [(x, y0)]);
    } else {
      var y := if y0 < y1 then y1 - 1 else y1 + 1;
      ColConnected(grid, sr, gr, x, y0, y);
      StepConnected(grid, sr, gr, (x, y), (x, y1));
      ConnectedTrans(grid, sr, gr, (x, y0), (x, y), (x, y1));
    }
  }

  /**
   * On the plan, a search from the hub centre reaches every region centre:
   * out of the hub along row 1 to the hallway column 8, down it, then along a
   * row into the region (the far corner region by row 13 and column 17, since
   * row 17 crosses the OR).
   */
  lemma {:induction false} CentersReachable(grid: array2<Kind>, r: Region)
    requires IsPlan(grid)
    ensures Connected(grid, Hub, r, Center(Hub), Center(r))
  {
    CenterInRegion(r);
    var hub, c := Center(Hub), Center(r);
    if r == Hub {
      assert Route(grid, Hub, r, hub, [hub]);
      return;
    }
    RowConnected(grid, Hub, r, 1, 1, 8);
    match r {
      case Waiting =>
        RowConnected(grid, Hub, r, 1, 8, 15);
        ConnectedTrans(grid, Hub, r, hub, (8, 1), c);
      case Icu =>
        ColConnected(grid, Hub, r, 8, 1, 5);
        RowConnected(grid, Hub, r, 5, 8, 5);
        ConnectedTrans(grid, Hub, r, hub, (8, 1), (8, 5));
        ConnectedTrans(grid, Hub, r, hub, (8, 5), c);
      case Er =>
        ColConnected(grid, Hub, r, 8, 1, 9);
        RowConnected(grid, Hub, r, 9, 8, 15);
        ConnectedTrans(grid, Hub, r, hub, (8, 1), (8, 9));
        ConnectedTrans(grid, Hub, r, hub, (8, 9), c);
      case Maternity =>
        ColConnected(grid, Hub, r, 8, 1, 13);
        RowConnected(grid, Hub, r, 13, 8, 3);
        ConnectedTrans(grid, Hub, r, hub, (8, 1), (8, 13));
        ConnectedTrans(grid, Hub, r, hub, (8, 13), c);
      case Or =>
        ColConnected(grid, Hub, r, 8, 1, 17);
        RowConnected(grid, Hub, r, 17, 8, 13);
        ConnectedTrans(grid, Hub, r, hub, (8, 1), (8, 17));
        ConnectedTrans(grid, Hub, r, hub, (8, 17), c);
      case Rooms =>
        ColConnected(grid, Hub, r, 8, 1, 13);
        RowConnected(grid, Hub, r, 13, 8, 17);
        ColConnected(grid, Hub, r, 17, 13, 17);
        ConnectedTrans(grid, Hub, r, hub, (8, 1), (8, 13));
        ConnectedTrans(grid, Hub, r, hub, (8, 13), (17, 13));
        ConnectedTrans(grid, Hub, r, hub, (17, 13), c);
    }
  }

  /** A route found by the search crosses only hallway and its two end regions. */
  lemma RouteStaysInCorridor(grid: array2<Kind>, r: Region, path: seq<Pos>, i: int)
    requires IsPlan(grid) && ShortestRoute(grid, Center(Hub), Center(r), path) && 0 <= i < |path|
    ensures InBounds(path[i])
    ensures PlanKind(path[i].0, path[i].1) in {Hall, Hub, r}
  {
    CenterInRegion(r);
    CenterInRegion(Hub);
  }

  /** All shortest routes between two positions have the same length, so the planned trip's cost does not depend on which one the search finds. */
  lemma ShortestRoutesSameLength(grid: array2<Kind>, start: Pos, goal: Pos, p: seq<Pos>, q: seq<Pos>)
    requires IsShape(grid) && InBounds(start) && InBounds(goal)
    requires ShortestRoute(grid, start, goal, p) && ShortestRoute(grid, start, goal, q)
    ensures |p| == |q|
  {
  }
}
