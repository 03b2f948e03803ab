/**
 * Path planning of the live simulation: A* over the walkable cells of the
 * floor plan with unit step cost and the Manhattan distance as heuristic.
 * Cells are (row, column) pairs.
 */
module Pathfinding {
  import opened Common
  import opened FloorPlan

  /** The walkable 4-neighbours of `pos`, tried in the order up, down, left, right. */
  function Neighbors(grid: array2<int>, pos: Cell): (ns: seq<Cell>)
    requires IsShape(grid)
    reads grid
    ensures forall n :: n in ns <==> Adjacent(pos, n) && IsWalkable(grid, n.0, n.1)
  {
    (if IsWalkable(grid, pos.0 - 1, pos.1) then [(pos.0 - 1, pos.1)] else []) +
    (if IsWalkable(grid, pos.0 + 1, pos.1) then [(pos.0 + 1, pos.1)] else []) +
    (if IsWalkable(grid, pos.0, pos.1 - 1) then [(pos.0, pos.1 - 1)] else []) +
    (if IsWalkable(grid, pos.0, pos.1 + 1) then [(pos.0, pos.1 + 1)] else [])
  }

  function Abs(x: int): nat
  {
    if x < 0 then -x else x
  }

  /** The heuristic: the Manhattan distance between two cells. */
  function Manhattan(a: Cell, b: Cell): nat
  {
    Abs(a.0 - b.0) + Abs(a.1 - b.1)
  }

  /** One step changes the Manhattan distance to a fixed cell by at most one. */
  lemma ManhattanStep(goal: Cell, u: Cell, v: Cell)
    requires Adjacent(u, v)
    ensures Manhattan(goal, u) <= Manhattan(goal, v) + 1
  {
  }

  /** A priority-queue entry: (priority, cell). */
  type Entry = (int, Cell)

  /** The order in which the heap hands out entries: by priority, then row, then column. */
  predicate EntryLe(a: Entry, b: Entry)
  {
    a.0 < b.0 || (a.0 == b.0 && (a.1.0 < b.1.0 || (a.1.0 == b.1.0 && a.1.1 <= b.1.1)))
  }

  /** Removes and returns a least entry of the queue. */
  method PopMin(pq: seq<Entry>) returns (e: Entry, rest: seq<Entry>)
    requires pq != []
    ensures e in pq && multiset(pq) == multiset(rest) + multiset{e} && |rest| == |pq| - 1
    ensures forall x :: x in pq ==> EntryLe(e, x)
  {
    var m := 0;
    for i := 1 to |pq|
      invariant 0 <= m < |pq|
      invariant forall j :: 0 <= j < i ==> EntryLe(pq[m], pq[j])
    {
      if !EntryLe(pq[m], pq[i]) {
        m := i;
      }
    }
    e := pq[m];
    rest := pq[..m] + pq[m + 1..];
    assert pq == pq[..m] + [pq[m]] + pq[m + 1..];
  }

  // ----- The search state and what the loop keeps true of it -----

  /**
   * The parent links: the start has cost 0 and no parent; every other recorded
   * cell is walkable and has a recorded 4-neighbour as parent, of lower cost.
   */
  ghost predicate Tree(grid: array2<int>, start: Cell, cost: map<Cell, nat>, cameFrom: map<Cell, Option<Cell>>)
    requires IsShape(grid)
    reads grid
  {
    start in cost && cost[start] == 0 &&
    cameFrom.Keys == cost.Keys && cameFrom[start] == None &&
    forall v :: v in cameFrom && v != start ==>
      cameFrom[v].Some? && cameFrom[v].value in cost && Adjacent(cameFrom[v].value, v) &&
      IsWalkable(grid, v.0, v.1) && cost[cameFrom[v].value] < cost[v]
  }

  /**
   * No entry promises less than its cell's recorded cost plus the heuristic,
   * except the start's own entry, which is queued at priority 0.
   */
  ghost predicate EntriesSound(start: Cell, goal: Cell, cost: map<Cell, nat>, pq: seq<Entry>)
  {
    forall e :: e in pq ==> e.1 in cost && (e == (0, start) || e.0 >= cost[e.1] + Manhattan(goal, e.1))
  }

  /** `u` still has an entry in the queue for its current cost. */
  ghost predicate Queued(start: Cell, goal: Cell, cost: map<Cell, nat>, pq: seq<Entry>, u: Cell)
    requires u in cost
  {
    (cost[u] + Manhattan(goal, u), u) in pq || (u == start && (0, start) in pq)
  }

  /** Every walkable neighbour of `u` is recorded at most one step dearer than `u`. */
  ghost predicate Expanded(grid: array2<int>, cost: map<Cell, nat>, u: Cell)
    requires IsShape(grid) && u in cost
    reads grid
  {
    forall w :: w in Neighbors(grid, u) ==> w in cost && cost[w] <= cost[u] + 1
  }

  /** Every recorded cell outside `except` is either still queued or expanded at its current cost. */
  ghost predicate AllSettled(grid: array2<int>, start: Cell, goal: Cell, cost: map<Cell, nat>, pq: seq<Entry>, except: set<Cell>)
    requires IsShape(grid)
    reads grid
  {
    forall u :: u in cost && u !in except ==> Queued(start, goal, cost, pq, u) || Expanded(grid, cost, u)
  }

  ghost predicate SearchInv(grid: array2<int>, start: Cell, goal: Cell, cost: map<Cell, nat>,
                            cameFrom: map<Cell, Option<Cell>>, pq: seq<Entry>)
    requires IsShape(grid)
    reads grid
  {
    Tree(grid, start, cost, cameFrom) && EntriesSound(start, goal, cost, pq) && AllSettled(grid, start, goal, cost, pq, {})
  }

  /** What the search has established about the goal once it stops. */
  ghost predicate Optimal(grid: array2<int>, start: Cell, goal: Cell, cost: map<Cell, nat>)
    requires IsShape(grid)
    reads grid
  {
    (goal in cost ==> forall steps :: Walk(grid, start, steps) && End(start, steps) == goal ==> cost[goal] <= |steps|) &&
    (goal !in cost ==> !Reachable(grid, start, goal))
  }

  lemma WalkInit(grid: array2<int>, start: Cell, steps: seq<Cell>)
    requires IsShape(grid) && Walk(grid, start, steps) && steps != []
    ensures Walk(grid, start, steps[..|steps| - 1])
    ensures Adjacent(End(start, steps[..|steps| - 1]), steps[|steps| - 1])
    ensures IsWalkable(grid, steps[|steps| - 1].0, steps[|steps| - 1].1)
  {
    var init := steps[..|steps| - 1];
    forall i | 0 <= i < |init|
      ensures Adjacent(Before(start, init, i), init[i]) && IsWalkable(grid, init[i].0, init[i].1)
    {
      assert Before(start, init, i) == Before(start, steps, i);
    }
    assert Before(start, steps, |steps| - 1) == End(start, init);
  }

  /**
   * Along any walk from the start, the search has either recorded the walk's
   * end at a cost no greater than the walk's length, or still holds an entry
   * whose priority is at most that length plus the end's heuristic.
   */
  lemma {:induction false} Frontier(grid: array2<int>, start: Cell, goal: Cell, cost: map<Cell, nat>,
                                    cameFrom: map<Cell, Option<Cell>>, pq: seq<Entry>, steps: seq<Cell>)
    requires IsShape(grid) && SearchInv(grid, start, goal, cost, cameFrom, pq)
    requires Walk(grid, start, steps)
    ensures (End(start, steps) in cost && cost[End(start, steps)] <= |steps|) ||
            exists e :: e in pq && e.0 <= |steps| + Manhattan(goal, End(start, steps))
  {
    if steps == [] {
      assert End(start, steps) == start;
    } else {
      var init := steps[..|steps| - 1];
      WalkInit(grid, start, steps);
      Frontier(grid, start, goal, cost, cameFrom, pq, init);
      var u, v := End(start, init), steps[|steps| - 1];
      assert End(start, steps) == v;
      ManhattanStep(goal, u, v);
      if u in cost && cost[u] <= |init| {
        if (cost[u] + Manhattan(goal, u), u) in pq {
          assert (cost[u] + Manhattan(goal, u), u).0 <= |steps| + Manhattan(goal, v);
        } else if u == start && (0, start) in pq {
          assert (0, start).0 <= |steps| + Manhattan(goal, v);
        } else {
          assert v in Neighbors(grid, u);
        }
      }
    }
  }

  /** Popping the goal as a least entry proves its recorded cost optimal. */
  lemma GoalPopped(grid: array2<int>, start: Cell, goal: Cell, cost: map<Cell, nat>,
                   cameFrom: map<Cell, Option<Cell>>, pq: seq<Entry>, e: Entry)
    requires IsShape(grid) && SearchInv(grid, start, goal, cost, cameFrom, pq)
    requires e in pq && e.1 == goal && forall x :: x in pq ==> EntryLe(e, x)
    ensures goal in cost && Optimal(grid, start, goal, cost)
  {
    assert e.0 >= cost[goal];
    forall steps | Walk(grid, start, steps) && End(start, steps) == goal
      ensures cost[goal] <= |steps|
    {
      Frontier(grid, start, goal, cost, cameFrom, pq, steps);
    }
  }

  /** With the queue empty, every reachable goal is recorded at an optimal cost. */
  lemma QueueExhausted(grid: array2<int>, start: Cell, goal: Cell, cost: map<Cell, nat>,
                       cameFrom: map<Cell, Option<Cell>>)
    requires IsShape(grid) && SearchInv(grid, start, goal, cost, cameFrom, [])
    ensures Optimal(grid, start, goal, cost)
  {
    forall steps | Walk(grid, start, steps) && End(start, steps) == goal
      ensures goal in cost && cost[goal] <= |steps|
    {
      Frontier(grid, start, goal, cost, cameFrom, [], steps);
    }
  }

  lemma StillQueued(pq: seq<Entry>, rest: seq<Entry>, e: Entry, x: Entry)
    requires multiset(pq) == multiset(rest) + multiset{e}
    ensures x in rest ==> x in pq
    ensures x in pq && x != e ==> x in rest
  {
    assert multiset(pq)[x] == multiset(rest)[x] + multiset{e}[x];
    assert x in pq <==> x in multiset(pq);
    assert x in rest <==> x in multiset(rest);
  }

  /** Taking an entry off the queue only unsettles the cell it names. */
  lemma PopKeepsSettled(grid: array2<int>, start: Cell, goal: Cell, cost: map<Cell, nat>, pq: seq<Entry>, e: Entry, rest: seq<Entry>)
    requires IsShape(grid) && AllSettled(grid, start, goal, cost, pq, {}) && EntriesSound(start, goal, cost, pq)
    requires multiset(pq) == multiset(rest) + multiset{e}
    ensures AllSettled(grid, start, goal, cost, rest, {e.1}) && EntriesSound(start, goal, cost, rest)
  {
    forall x | x in rest ensures x in pq {
      StillQueued(pq, rest, e, x);
    }
    forall u | u in cost && u != e.1 && Queued(start, goal, cost, pq, u)
      ensures Queued(start, goal, cost, rest, u)
    {
      StillQueued(pq, rest, e, (cost[u] + Manhattan(goal, u), u));
      StillQueued(pq, rest, e, (0, start));
    }
  }

  /** The new parent link of a relaxed neighbour keeps the tree well formed. */
  lemma RelaxTree(grid: array2<int>, start: Cell, cost: map<Cell, nat>,
                  cameFrom: map<Cell, Option<Cell>>, current: Cell, next: Cell, c: nat)
    requires IsShape(grid) && Tree(grid, start, cost, cameFrom)
    requires current in cost && next in Neighbors(grid, current) && c == cost[current] + 1
    requires next !in cost || c < cost[next]
    ensures next != current && next != start
    ensures Tree(grid, start, cost[next := c], cameFrom[next := Some(current)])
  {
    var cost', cameFrom' := cost[next := c], cameFrom[next := Some(current)];
    forall v | v in cameFrom' && v != start
      ensures cameFrom'[v].Some? && cameFrom'[v].value in cost' && Adjacent(cameFrom'[v].value, v) &&
              IsWalkable(grid, v.0, v.1) && cost'[cameFrom'[v].value] < cost'[v]
    {
      if v != next {
        assert cameFrom'[v] == cameFrom[v] && cost'[v] == cost[v];
      }
    }
  }

  /** The entry pushed for a relaxed neighbour is sound, and so are the older ones. */
  lemma RelaxEntries(start: Cell, goal: Cell, cost: map<Cell, nat>, pq: seq<Entry>, next: Cell, c: nat)
    requires EntriesSound(start, goal, cost, pq) && next != start
    requires next !in cost || c < cost[next]
    ensures EntriesSound(start, goal, cost[next := c], pq + [(c + Manhattan(goal, next), next)])
  {
  }

  /** Relaxing a neighbour queues it and leaves every other cell settled. */
  lemma RelaxSettled(grid: array2<int>, start: Cell, goal: Cell, cost: map<Cell, nat>, pq: seq<Entry>,
                     current: Cell, next: Cell, c: nat)
    requires IsShape(grid) && AllSettled(grid, start, goal, cost, pq, {current})
    requires current in cost && next != current && next != start && c == cost[current] + 1
    requires next !in cost || c < cost[next]
    ensures AllSettled(grid, start, goal, cost[next := c], pq + [(c + Manhattan(goal, next), next)], {current})
  {
    var cost', pq' := cost[next := c], pq + [(c + Manhattan(goal, next), next)];
    forall u | u in cost' && u != current
      ensures Queued(start, goal, cost', pq', u) || Expanded(grid, cost', u)
    {
      RelaxSettledAt(grid, start, goal, cost, pq, current, next, c, u);
    }
  }

  /** The step of `RelaxSettled` for one recorded cell `u`. */
  lemma RelaxSettledAt(grid: array2<int>, start: Cell, goal: Cell, cost: map<Cell, nat>, pq: seq<Entry>,
                       current: Cell, next: Cell, c: nat, u: Cell)
    requires IsShape(grid) && AllSettled(grid, start, goal, cost, pq, {current})
    requires current in cost && next != current && next != start && c == cost[current] + 1
    requires next !in cost || c < cost[next]
    requires u in cost[next := c] && u != current
    ensures Queued(start, goal, cost[next := c], pq + [(c + Manhattan(goal, next), next)], u) ||
            Expanded(grid, cost[next := c], u)
  {
    var cost', pq' := cost[next := c], pq + [(c + Manhattan(goal, next), next)];
    if u == next {
      assert pq'[|pq|] == (cost'[u] + Manhattan(goal, u), u);
    } else if Queued(start, goal, cost, pq, u) {
      assert (cost[u] + Manhattan(goal, u), u) in pq ==> (cost'[u] + Manhattan(goal, u), u) in pq';
    } else {
      ExpandedAfterRecord(grid, cost, u, next, c);
    }
  }

  /** Lowering or adding the cost of another cell keeps `u` expanded. */
  lemma ExpandedAfterRecord(grid: array2<int>, cost: map<Cell, nat>, u: Cell, next: Cell, c: nat)
    requires IsShape(grid) && u in cost && u != next && Expanded(grid, cost, u)
    requires next !in cost || c < cost[next]
    ensures Expanded(grid, cost[next := c], u)
  {
  }

  /** The sum of the recorded costs over `cells`. */
  function SumCost(cells: seq<Cell>, cost: map<Cell, nat>): nat
  {
    if cells == [] then 0 else (if cells[0] in cost then cost[cells[0]] else 0) + SumCost(cells[1..], cost)
  }

  /** Lowering the recorded cost of one listed cell lowers the sum. */
  lemma {:induction false} SumCostLower(cells: seq<Cell>, cost: map<Cell, nat>, x: Cell, c: nat)
    requires x in cost && c < cost[x]
    ensures SumCost(cells, cost[x := c]) <= SumCost(cells, cost)
    ensures x in cells ==> SumCost(cells, cost[x := c]) < SumCost(cells, cost)
  {
    if cells != [] {
      SumCostLower(cells[1..], cost, x, c);
    }
  }

  /** The first `i` cells of `ns` are recorded at cost at most `bound`. */
  ghost predicate Processed(cost: map<Cell, nat>, ns: seq<Cell>, i: nat, bound: int)
  {
    i <= |ns| && forall j :: 0 <= j < i ==> ns[j] in cost && cost[ns[j]] <= bound
  }

  lemma ProcessedRecord(cost: map<Cell, nat>, ns: seq<Cell>, i: nat, c: nat, bound: int)
    requires Processed(cost, ns, i, bound) && i < |ns| && c <= bound
    requires ns[i] !in cost || c < cost[ns[i]]
    ensures Processed(cost[ns[i] := c], ns, i + 1, bound)
  {
  }

  lemma ProcessedKeep(cost: map<Cell, nat>, ns: seq<Cell>, i: nat, bound: int)
    requires Processed(cost, ns, i, bound) && i < |ns| && ns[i] in cost && cost[ns[i]] <= bound
    ensures Processed(cost, ns, i + 1, bound)
  {
  }

  /**
   * Expands `current`: every walkable neighbour that is new, or reachable more
   * cheaply through `current`, gets cost one more than `current`, `current` as
   * its parent, and a queue entry at that cost plus its heuristic.
   */
  method Expand(grid: array2<int>, start: Cell, goal: Cell, current: Cell,
                cost0: map<Cell, nat>, cameFrom0: map<Cell, Option<Cell>>, pq0: seq<Entry>)
    returns (cost: map<Cell, nat>, cameFrom: map<Cell, Option<Cell>>, pq: seq<Entry>)
    requires IsShape(grid) && current in cost0
    requires Tree(grid, start, cost0, cameFrom0) && EntriesSound(start, goal, cost0, pq0)
    requires AllSettled(grid, start, goal, cost0, pq0, {current})
    ensures SearchInv(grid, start, goal, cost, cameFrom, pq)
    ensures Missing(AllCells, cost) <= Missing(AllCells, cost0)
    ensures (cost == cost0 && pq == pq0) || Missing(AllCells, cost) < Missing(AllCells, cost0) ||
            SumCost(AllCells, cost) < SumCost(AllCells, cost0)
  {
    cost, cameFrom, pq := cost0, cameFrom0, pq0;
    var ns := Neighbors(grid, current);
    for i := 0 to |ns|
      invariant Tree(grid, start, cost, cameFrom) && EntriesSound(start, goal, cost, pq)
      invariant AllSettled(grid, start, goal, cost, pq, {current})
      invariant current in cost && cost[current] == cost0[current]
      invariant Processed(cost, ns, i, cost0[current] + 1)
      invariant Missing(AllCells, cost) <= Missing(AllCells, cost0)
      invariant (cost == cost0 && pq == pq0) || Missing(AllCells, cost) < Missing(AllCells, cost0) ||
                SumCost(AllCells, cost) < SumCost(AllCells, cost0)
    {
      var next := ns[i];
      var newCost := cost[current] + 1;
      if next !in cost || newCost < cost[next] {
        RelaxTree(grid, start, cost, cameFrom, current, next, newCost);
        RelaxEntries(start, goal, cost, pq, next, newCost);
        RelaxSettled(grid, start, goal, cost, pq, current, next, newCost);
        InAllCells(next);
        MissingRecord(AllCells, cost, next, newCost);
        if next in cost {
          SumCostLower(AllCells, cost, next, newCost);
        }
        ProcessedRecord(cost, ns, i, newCost, cost0[current] + 1);
        pq := pq + [(newCost + Manhattan(goal, next), next)];
        cameFrom := cameFrom[next := Some(current)];
        cost := cost[next := newCost];
      } else {
        ProcessedKeep(cost, ns, i, cost0[current] + 1);
      }
    }
    assert Expanded(grid, cost, current);
  }

  /**
   * The search loop: pops least entries until the goal is popped or the queue
   * runs dry, expanding every other popped cell.
   */
  method Search(grid: array2<int>, start: Cell, goal: Cell)
    returns (cost: map<Cell, nat>, cameFrom: map<Cell, Option<Cell>>)
    requires IsShape(grid)
    ensures Tree(grid, start, cost, cameFrom) && Optimal(grid, start, goal, cost)
  {
    var pq: seq<Entry> := [(0, start)];
    cameFrom := map[start := None];
    cost := map[start := 0];
    assert Queued(start, goal, cost, pq, start);

    while pq != []
      invariant SearchInv(grid, start, goal, cost, cameFrom, pq)
      decreases Missing(AllCells, cost), SumCost(AllCells, cost), |pq|
    {
      var e, rest := PopMin(pq);
      var current := e.1;
      if current == goal {
        GoalPopped(grid, start, goal, cost, cameFrom, pq, e);
        return;
      }
      PopKeepsSettled(grid, start, goal, cost, pq, e, rest);
      ghost var cost0, pq0 := cost, pq;
      cost, cameFrom, pq := Expand(grid, start, goal, current, cost, cameFrom, rest);
      assert Missing(AllCells, cost) < Missing(AllCells, cost0) ||
             (Missing(AllCells, cost) == Missing(AllCells, cost0) && SumCost(AllCells, cost) < SumCost(AllCells, cost0)) ||
             (Missing(AllCells, cost) == Missing(AllCells, cost0) && SumCost(AllCells, cost) == SumCost(AllCells, cost0) && |pq| < |pq0|);
    }
    QueueExhausted(grid, start, goal, cost, cameFrom);
  }

  /**
   * A* from `start` to `end`: returns the cells after `start` up to and
   * including `end` on a shortest walk, or `[]` when `end` is unreachable or
   * equal to `start`.
   */
  method FindPath(grid: array2<int>, start: Cell, end: Cell) returns (path: seq<Cell>)
    requires IsShape(grid)
    ensures start == end ==> path == []
    ensures path != [] ==> Walk(grid, start, path) && End(start, path) == end && start !in path
    ensures start != end ==> (path == [] <==> !Reachable(grid, start, end))
    ensures forall steps :: Walk(grid, start, steps) && End(start, steps) == end ==> |path| <= |steps|
  {
    var cost, cameFrom := Search(grid, start, end);
    if end !in cameFrom {
      return [];
    }
    path := [];
    var curr := end;
    while curr != start
      invariant curr in cost && Walk(grid, curr, path) && End(curr, path) == end
      invariant |path| + cost[curr] <= cost[end] && start !in path
      decreases cost[curr]
    {
      var parent := cameFrom[curr].value;
      WalkCons(grid, parent, curr, path);
      path := [curr] + path;
      curr := parent;
    }
  }

  lemma WalkCons(grid: array2<int>, a: Cell, b: Cell, steps: seq<Cell>)
    requires IsShape(grid) && Adjacent(a, b) && IsWalkable(grid, b.0, b.1) && Walk(grid, b, steps)
    ensures Walk(grid, a, [b] + steps) && End(a, [b] + steps) == End(b, steps)
  {
    var s := [b] + steps;
    forall i | 0 <= i < |s|
      ensures Adjacent(Before(a, s, i), s[i]) && IsWalkable(grid, s[i].0, s[i].1)
    {
      if i > 0 {
        assert s[i] == steps[i - 1];
        assert Before(a, s, i) == Before(b, steps, i - 1);
      }
    }
  }
}
