/** Small building blocks shared by the two simulations. */
module Common {

  /** Python's `None` or a value. */
  datatype Option<T> = None | Some(value: T)

  /**
   * Assigns `v` to every cell of the rectangle rows `r0..r1-1` by columns `c0..c1-1`
   * of `a` and leaves every other cell alone. This is a numpy slice assignment
   * `a[r0:r1, c0:c1] = v`, and the two nested `for` loops that fill a room of a
   * list-of-lists floor plan.
   */
  method FillRect<T>(a: array2<T>, r0: int, r1: int, c0: int, c1: int, v: T)
    requires 0 <= r0 <= r1 <= a.Length0 && 0 <= c0 <= c1 <= a.Length1
    modifies a
    ensures forall r, c :: 0 <= r < a.Length0 && 0 <= c < a.Length1 ==>
              a[r, c] == if r0 <= r < r1 && c0 <= c < c1 then v else old(a[r, c])
  {
    var r := r0;
    while r < r1
      invariant r0 <= r <= r1
      invariant forall i, j :: 0 <= i < a.Length0 && 0 <= j < a.Length1 ==>
                  a[i, j] == if r0 <= i < r && c0 <= j < c1 then v else old(a[i, j])
    {
      var c := c0;
      while c < c1
        invariant c0 <= c <= c1
        invariant forall i, j :: 0 <= i < a.Length0 && 0 <= j < a.Length1 ==>
                    a[i, j] == if (r0 <= i < r && c0 <= j < c1) || (i == r && c0 <= j < c) then v else old(a[i, j])
      {
        a[r, c] := v;
        c := c + 1;
      }
      r := r + 1;
    }
  }

  // ----- A termination measure for searches over a 20 by 20 grid -----

  /** Every cell of a 20 by 20 grid, row by row. */
  const AllCells: seq<(int, int)> := seq(400, i requires 0 <= i < 400 => (i / 20, i % 20))

  lemma InAllCells(v: (int, int))
    requires 0 <= v.0 < 20 && 0 <= v.1 < 20
    ensures v in AllCells
  {
    var i := v.0 * 20 + v.1;
    assert AllCells[i] == (i / 20, i % 20) == v;
  }

  /** The number of listed cells that have no recorded cost yet. */
  function Missing<K(==)>(cells: seq<K>, cost: map<K, nat>): nat
  {
    if cells == [] then 0 else (if cells[0] in cost then 0 else 1) + Missing(cells[1..], cost)
  }

  /** Recording a cost never adds missing cells, and recording a new listed cell removes one. */
  lemma {:induction false} MissingRecord<K>(cells: seq<K>, cost: map<K, nat>, x: K, c: nat)
    ensures Missing(cells, cost[x := c]) <= Missing(cells, cost)
    ensures x in cost ==> Missing(cells, cost[x := c]) == Missing(cells, cost)
    ensures x !in cost && x in cells ==> Missing(cells, cost[x := c]) < Missing(cells, cost)
  {
    if cells != [] {
      MissingRecord(cells[1..], cost, x, c);
    }
  }
}
