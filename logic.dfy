/**
 * Task prioritisation: the priority score of a submitted task and the
 * insertion sort that orders the queue (CTAS-1 tasks first, the rest by
 * ascending score).
 */
module Logic {
  import opened FloorPlan

  /** A submitted delivery task: the fields the dispatcher and the prioritisation read. */
  datatype Task = Task(item: string, target: Department, urgency: int, ctas: int, weight: real, arrivalTime: real)

  /**
   * The priority score at time `now` (seconds): 100 per CTAS level, plus one per
   * minute waited, minus 5 per urgency level. A lower score is served earlier.
   */
  function CalculatePriority(t: Task, now: real): real
  {
    (t.ctas * 100) as real + (now - t.arrivalTime) / 60.0 - (t.urgency * 5) as real
  }

  /**
   * One CTAS level outweighs the whole urgency range (1..5) and up to 80 minutes
   * of difference in waiting time: the task with the lower CTAS level scores lower.
   */
  lemma CtasOutranksUrgencyAndWait(a: Task, b: Task, now: real)
    requires a.ctas < b.ctas
    requires 1 <= a.urgency <= 5 && 1 <= b.urgency <= 5
    requires b.arrivalTime - a.arrivalTime < 4800.0
    ensures CalculatePriority(a, now) < CalculatePriority(b, now)
  {
  }

  /** Each extra minute waited adds exactly one to the score. */
  lemma WaitingRaisesScore(t: Task, now: real, minutes: real)
    ensures CalculatePriority(t, now + 60.0 * minutes) == CalculatePriority(t, now) + minutes
  {
  }

  predicate IsCtasOne(t: Task)
  {
    t.ctas == 1
  }

  /**
   * The index where a non-CTAS-1 task with score `score` is inserted, scanning from
   * `i`: the first non-CTAS-1 entry whose score is strictly greater, or the end.
   */
  function InsertAt(s: seq<Task>, score: real, now: real, i: nat): (k: nat)
    requires i <= |s|
    ensures i <= k <= |s|
    ensures forall j :: i <= j < k ==> IsCtasOne(s[j]) || CalculatePriority(s[j], now) <= score
    ensures k < |s| ==> !IsCtasOne(s[k]) && score < CalculatePriority(s[k], now)
    decreases |s| - i
  {
    if i == |s| then i
    else if !IsCtasOne(s[i]) && score < CalculatePriority(s[i], now) then i
    else InsertAt(s, score, now, i + 1)
  }

  /** Adds one task to the partly sorted list: CTAS-1 at the front, others before the first strictly worse non-CTAS-1 entry. */
  function InsertOne(sorted: seq<Task>, t: Task, now: real): seq<Task>
  {
    if IsCtasOne(t) then [t] + sorted
    else
      var k := InsertAt(sorted, CalculatePriority(t, now), now, 0);
      sorted[..k] + [t] + sorted[k..]
  }

  /** The list the prioritisation returns: the tasks inserted one by one, in input order. */
  function Prioritized(tasks: seq<Task>, now: real): seq<Task>
  {
    if tasks == [] then []
    else InsertOne(Prioritized(tasks[..|tasks| - 1], now), tasks[|tasks| - 1], now)
  }

  /**
   * The insertion sort of the queue, with the clock read once as `now`: each
   * CTAS-1 task is put at the front; any other task goes before the first
   * non-CTAS-1 task that scores strictly higher, or at the end.
   */
  method PrioritizePatients(patients: seq<Task>, now: real) returns (sorted: seq<Task>)
    ensures sorted == Prioritized(patients, now)
  {
    sorted := [];
    for j := 0 to |patients|
      invariant sorted == Prioritized(patients[..j], now)
    {
      assert patients[..j + 1][..j] == patients[..j];
      var patient := patients[j];
      if patient.ctas == 1 {
        sorted := [patient] + sorted;
        continue;
      }
      var priority := CalculatePriority(patient, now);
      var inserted := false;
      ghost var before := sorted;
      var i := 0;
      while i < |sorted|
        invariant 0 <= i <= |before|
        invariant !inserted ==> sorted == before && InsertAt(before, priority, now, i) == InsertAt(before, priority, now, 0)
        invariant inserted ==> sorted == InsertOne(before, patient, now)
      {
        if sorted[i].ctas == 1 {
          i := i + 1;
          continue;
        }
        if priority < CalculatePriority(sorted[i], now) {
          sorted := sorted[..i] + [patient] + sorted[i..];
          inserted := true;
          break;
        }
        i := i + 1;
      }
      if !inserted {
        assert sorted[..|sorted|] == sorted;
        sorted := sorted + [patient];
      }
    }
    assert patients[..|patients|] == patients;
  }

  // ----- Filters used to state the ordering -----

  /** Which tasks a filter keeps. */
  datatype Selector = CtasOne | NotCtasOne | ScoreBand(now: real, score: real)

  predicate Selects(sel: Selector, t: Task)
  {
    match sel
    case CtasOne => IsCtasOne(t)
    case NotCtasOne => !IsCtasOne(t)
    case ScoreBand(now, score) => !IsCtasOne(t) && CalculatePriority(t, now) == score
  }

  /** The tasks of `s` that `sel` keeps, in their order in `s`. */
  function Filter(s: seq<Task>, sel: Selector): seq<Task>
  {
    if s == [] then []
    else if Selects(sel, s[0]) then [s[0]] + Filter(s[1..], sel)
    else Filter(s[1..], sel)
  }

  function Reverse(s: seq<Task>): (r: seq<Task>)
    ensures |r| == |s|
  {
    if s == [] then [] else [s[|s| - 1]] + Reverse(s[..|s| - 1])
  }

  lemma {:induction false} FilterAppend(a: seq<Task>, b: seq<Task>, sel: Selector)
    ensures Filter(a + b, sel) == Filter(a, sel) + Filter(b, sel)
  {
    if a == [] {
      assert a + b == b;
    } else {
      assert (a + b)[0] == a[0];
      assert (a + b)[1..] == a[1..] + b;
      FilterAppend(a[1..], b, sel);
      if Selects(sel, a[0]) {
        assert [a[0]] + (Filter(a[1..], sel) + Filter(b, sel)) == [a[0]] + Filter(a[1..], sel) + Filter(b, sel);
      }
    }
  }

  lemma {:induction false} FilterNone(s: seq<Task>, sel: Selector)
    requires forall i :: 0 <= i < |s| ==> !Selects(sel, s[i])
    ensures Filter(s, sel) == []
  {
    if s != [] {
      FilterNone(s[1..], sel);
    }
  }

  lemma {:induction false} FilterMembers(s: seq<Task>, sel: Selector)
    ensures forall t :: t in Filter(s, sel) ==> t in s && Selects(sel, t)
  {
    if s != [] {
      FilterMembers(s[1..], sel);
    }
  }

  lemma ReverseSnoc(s: seq<Task>, t: Task)
    ensures Reverse(s + [t]) == [t] + Reverse(s)
  {
    assert (s + [t])[..|s|] == s;
  }

  // ----- The ordering the insertion sort produces -----

  /** Every CTAS-1 task stands before every other task. */
  predicate CtasOneFirst(s: seq<Task>)
  {
    forall i, j :: 0 <= i < j < |s| && IsCtasOne(s[j]) ==> IsCtasOne(s[i])
  }

  /** The non-CTAS-1 tasks stand in non-decreasing score order. */
  predicate ScoresAscending(s: seq<Task>, now: real)
  {
    forall i, j :: 0 <= i < j < |s| && !IsCtasOne(s[i]) ==> CalculatePriority(s[i], now) <= CalculatePriority(s[j], now)
  }

  /** From the insertion point on, every entry is a non-CTAS-1 task scoring strictly above `score`. */
  lemma AfterInsertPoint(r: seq<Task>, score: real, now: real)
    requires CtasOneFirst(r) && ScoresAscending(r, now)
    ensures forall j :: InsertAt(r, score, now, 0) <= j < |r| ==>
              !IsCtasOne(r[j]) && score < CalculatePriority(r[j], now)
  {
  }

  /** Where each entry of the list lands after a task is inserted at `k`. */
  lemma InsertedIndexing(r: seq<Task>, t: Task, k: nat)
    requires k <= |r|
    ensures |r[..k] + [t] + r[k..]| == |r| + 1
    ensures forall x :: 0 <= x < k ==> (r[..k] + [t] + r[k..])[x] == r[x]
    ensures (r[..k] + [t] + r[k..])[k] == t
    ensures forall x :: k < x <= |r| ==> (r[..k] + [t] + r[k..])[x] == r[x - 1]
  {
  }

  /** Inserting one task keeps the list CTAS-1-first and score-sorted. */
  lemma InsertOneOrdered(r: seq<Task>, t: Task, now: real)
    requires CtasOneFirst(r) && ScoresAscending(r, now)
    ensures CtasOneFirst(InsertOne(r, t, now)) && ScoresAscending(InsertOne(r, t, now), now)
  {
    if !IsCtasOne(t) {
      var st := CalculatePriority(t, now);
      var k := InsertAt(r, st, now, 0);
      AfterInsertPoint(r, st, now);
      InsertKeepsOrder(r, t, k, now);
    }
  }

  lemma InsertKeepsOrder(r: seq<Task>, t: Task, k: nat, now: real)
    requires k <= |r| && !IsCtasOne(t)
    requires CtasOneFirst(r) && ScoresAscending(r, now)
    requires forall j :: 0 <= j < k ==> IsCtasOne(r[j]) || CalculatePriority(r[j], now) <= CalculatePriority(t, now)
    requires forall j :: k <= j < |r| ==> !IsCtasOne(r[j]) && CalculatePriority(t, now) < CalculatePriority(r[j], now)
    ensures CtasOneFirst(r[..k] + [t] + r[k..]) && ScoresAscending(r[..k] + [t] + r[k..], now)
  {
    var r' := r[..k] + [t] + r[k..];
    InsertedIndexing(r, t, k);
    forall i, j | 0 <= i < j < |r'| && IsCtasOne(r'[j])
      ensures IsCtasOne(r'[i])
    {
      assert j < k;
      assert r'[i] == r[i] && r'[j] == r[j];
    }
    forall i, j | 0 <= i < j < |r'| && !IsCtasOne(r'[i])
      ensures CalculatePriority(r'[i], now) <= CalculatePriority(r'[j], now)
    {
      if j < k {
        assert r'[i] == r[i] && r'[j] == r[j];
      } else if j == k {
        assert r'[i] == r[i];
      } else if i < k {
        assert r'[i] == r[i] && r'[j] == r[j - 1];
      } else if i == k {
        assert r'[j] == r[j - 1];
      } else {
        assert r'[i] == r[i - 1] && r'[j] == r[j - 1];
      }
    }
  }

  /** Inserting a CTAS-1 task puts it in front of the list's filtered part when selected. */
  lemma InsertCtasOneFilter(r: seq<Task>, t: Task, now: real, sel: Selector)
    requires IsCtasOne(t)
    ensures Filter(InsertOne(r, t, now), sel) == (if Selects(sel, t) then [t] else []) + Filter(r, sel)
  {
    FilterAppend([t], r, sel);
  }

  /**
   * Inserting any other task appends it to the filtered part when selected: nothing
   * from the insertion point on has the task's score.
   */
  lemma InsertOtherFilter(r: seq<Task>, t: Task, now: real, sel: Selector)
    requires CtasOneFirst(r) && ScoresAscending(r, now)
    requires !IsCtasOne(t) && !sel.NotCtasOne? && (sel.ScoreBand? ==> sel.now == now)
    ensures Filter(InsertOne(r, t, now), sel) == Filter(r, sel) + (if Selects(sel, t) then [t] else [])
  {
    var k := InsertAt(r, CalculatePriority(t, now), now, 0);
    AfterInsertPoint(r, CalculatePriority(t, now), now);
    FilterSplitInsert(r, t, k, sel);
  }

  lemma FilterSplitInsert(r: seq<Task>, t: Task, k: nat, sel: Selector)
    requires k <= |r|
    requires Selects(sel, t) ==> forall j :: k <= j < |r| ==> !Selects(sel, r[j])
    ensures Filter(r[..k] + [t] + r[k..], sel) == Filter(r, sel) + (if Selects(sel, t) then [t] else [])
  {
    var front, back := r[..k], r[k..];
    assert r == front + back;
    FilterAppend(front, back, sel);
    FilterAppend(front + [t], back, sel);
    FilterAppend(front, [t], sel);
    if Selects(sel, t) {
      assert forall i :: 0 <= i < |back| ==> back[i] == r[k + i];
      FilterNone(back, sel);
    }
    FilterSplitAlgebra(Filter(front, sel), Filter(back, sel), Filter([t], sel), if Selects(sel, t) then [t] else []);
  }

  lemma FilterSplitAlgebra(ff: seq<Task>, fb: seq<Task>, ft: seq<Task>, e: seq<Task>)
    requires ft == e && (e == [] || fb == [])
    ensures ff + ft + fb == ff + fb + e
  {
  }

  /** The insertion sort adds exactly the inserted task to the multiset. */
  lemma InsertOneMultiset(r: seq<Task>, t: Task, now: real)
    ensures multiset(InsertOne(r, t, now)) == multiset(r) + multiset{t}
  {
    if !IsCtasOne(t) {
      var k := InsertAt(r, CalculatePriority(t, now), now, 0);
      assert r == r[..k] + r[k..];
    }
  }

  /** The output holds exactly the input's tasks, each as often as in the input. */
  lemma {:induction false} PrioritizedIsPermutation(tasks: seq<Task>, now: real)
    ensures |Prioritized(tasks, now)| == |tasks|
    ensures multiset(Prioritized(tasks, now)) == multiset(tasks)
  {
    if tasks != [] {
      var init, t := tasks[..|tasks| - 1], tasks[|tasks| - 1];
      assert tasks == init + [t];
      PrioritizedIsPermutation(init, now);
      InsertOneMultiset(Prioritized(init, now), t, now);
      assert |multiset(Prioritized(tasks, now))| == |multiset(tasks)|;
    }
  }

  /** The output is CTAS-1-first and, after that block, sorted by score. */
  lemma {:induction false} PrioritizedOrdered(tasks: seq<Task>, now: real)
    ensures CtasOneFirst(Prioritized(tasks, now)) && ScoresAscending(Prioritized(tasks, now), now)
  {
    if tasks != [] {
      PrioritizedOrdered(tasks[..|tasks| - 1], now);
      InsertOneOrdered(Prioritized(tasks[..|tasks| - 1], now), tasks[|tasks| - 1], now);
    }
  }

  /** Every CTAS-1 task is ahead of every task with another CTAS level. */
  lemma CtasOneAhead(tasks: seq<Task>, now: real, i: int, j: int)
    requires 0 <= i < |Prioritized(tasks, now)| && 0 <= j < |Prioritized(tasks, now)|
    requires IsCtasOne(Prioritized(tasks, now)[i]) && !IsCtasOne(Prioritized(tasks, now)[j])
    ensures i < j
  {
    PrioritizedOrdered(tasks, now);
  }

  /** With `now` fixed, the non-CTAS-1 tasks come out in non-decreasing score order. */
  lemma NonCtasOneAscending(tasks: seq<Task>, now: real, i: int, j: int)
    requires 0 <= i < j < |Prioritized(tasks, now)| && !IsCtasOne(Prioritized(tasks, now)[i])
    ensures !IsCtasOne(Prioritized(tasks, now)[j])
    ensures CalculatePriority(Prioritized(tasks, now)[i], now) <= CalculatePriority(Prioritized(tasks, now)[j], now)
  {
    PrioritizedOrdered(tasks, now);
  }

  /** The CTAS-1 tasks come out in reverse input order (each was inserted at index 0). */
  lemma {:induction false} CtasOneReversed(tasks: seq<Task>, now: real)
    ensures Filter(Prioritized(tasks, now), CtasOne) == Reverse(Filter(tasks, CtasOne))
  {
    if tasks != [] {
      var init, t := tasks[..|tasks| - 1], tasks[|tasks| - 1];
      assert tasks == init + [t];
      CtasOneReversed(init, now);
      var r := Prioritized(init, now);
      FilterAppend(init, [t], CtasOne);
      if IsCtasOne(t) {
        InsertCtasOneFilter(r, t, now, CtasOne);
        assert Filter([t], CtasOne) == [t];
        ReverseSnoc(Filter(init, CtasOne), t);
        assert Prioritized(tasks, now) == InsertOne(r, t, now);
        assert Filter(Prioritized(tasks, now), CtasOne) == [t] + Filter(r, CtasOne);
        assert Filter(tasks, CtasOne) == Filter(init, CtasOne) + [t];
      } else {
        PrioritizedOrdered(init, now);
        InsertOtherFilter(r, t, now, CtasOne);
        assert Filter([t], CtasOne) == [];
        assert Filter(tasks, CtasOne) == Filter(init, CtasOne);
        assert Prioritized(tasks, now) == InsertOne(r, t, now);
        assert Filter(Prioritized(tasks, now), CtasOne) == Filter(r, CtasOne);
      }
      assert Prioritized(tasks, now) == InsertOne(r, t, now);
    }
  }

  /** The sort is stable: non-CTAS-1 tasks with equal scores keep their input order. */
  lemma {:induction false} Stable(tasks: seq<Task>, now: real, score: real)
    ensures Filter(Prioritized(tasks, now), ScoreBand(now, score)) == Filter(tasks, ScoreBand(now, score))
  {
    if tasks != [] {
      var init, t := tasks[..|tasks| - 1], tasks[|tasks| - 1];
      var sel := ScoreBand(now, score);
      assert tasks == init + [t];
      Stable(init, now, score);
      var r := Prioritized(init, now);
      FilterAppend(init, [t], sel);
      if IsCtasOne(t) {
        InsertCtasOneFilter(r, t, now, sel);
        assert Filter([t], sel) == [];
      } else {
        PrioritizedOrdered(init, now);
        InsertOtherFilter(r, t, now, sel);
      }
    }
  }

  /**
   * Prioritising an already prioritised list (same `now`) re-reverses the CTAS-1
   * block and leaves the non-CTAS-1 part as it is: for any list that is
   * CTAS-1-first and score-sorted, the result is its CTAS-1 tasks reversed
   * followed by its other tasks.
   */
  lemma {:induction false} PrioritizeOrdered(s: seq<Task>, now: real)
    requires CtasOneFirst(s) && ScoresAscending(s, now)
    ensures Prioritized(s, now) == Reverse(Filter(s, CtasOne)) + Filter(s, NotCtasOne)
  {
    if s != [] {
      var init, t := s[..|s| - 1], s[|s| - 1];
      assert s == init + [t];
      assert forall i :: 0 <= i < |init| ==> init[i] == s[i];
      PrioritizeOrdered(init, now);
      PrioritizedSnoc(init, t, now);
      var fc, fn := Filter(init, CtasOne), Filter(init, NotCtasOne);
      FilterSnoc(init, t, CtasOne);
      FilterSnoc(init, t, NotCtasOne);
      if IsCtasOne(t) {
        PrioritizeOrderedCtasOneStep(fc, fn, t, now);
        assert Filter(s, NotCtasOne) == fn + [] == fn;
      } else {
        PrioritizeOrderedOtherStep(init, t, now);
        assert Filter(s, CtasOne) == fc + [] == fc;
      }
    }
  }

  lemma PrioritizedSnoc(init: seq<Task>, t: Task, now: real)
    ensures Prioritized(init + [t], now) == InsertOne(Prioritized(init, now), t, now)
  {
    assert (init + [t])[..|init|] == init;
  }

  lemma FilterSnoc(init: seq<Task>, t: Task, sel: Selector)
    ensures Filter(init + [t], sel) == Filter(init, sel) + (if Selects(sel, t) then [t] else [])
  {
    FilterAppend(init, [t], sel);
  }

  lemma PrioritizeOrderedCtasOneStep(fc: seq<Task>, rn: seq<Task>, t: Task, now: real)
    requires IsCtasOne(t)
    ensures InsertOne(Reverse(fc) + rn, t, now) == Reverse(fc + [t]) + rn
  {
    ReverseSnoc(fc, t);
  }

  lemma {:induction false} PrioritizeOrderedOtherStep(init: seq<Task>, t: Task, now: real)
    requires !IsCtasOne(t)
    requires forall i :: 0 <= i < |init| && !IsCtasOne(init[i]) ==> CalculatePriority(init[i], now) <= CalculatePriority(t, now)
    ensures InsertOne(Reverse(Filter(init, CtasOne)) + Filter(init, NotCtasOne), t, now) ==
            Reverse(Filter(init, CtasOne)) + (Filter(init, NotCtasOne) + [t])
  {
    NoneGreater(init, t, now);
    AppendWhenNoneGreater(Reverse(Filter(init, CtasOne)) + Filter(init, NotCtasOne), t, now);
  }

  lemma NoneGreater(init: seq<Task>, t: Task, now: real)
    requires forall i :: 0 <= i < |init| && !IsCtasOne(init[i]) ==> CalculatePriority(init[i], now) <= CalculatePriority(t, now)
    ensures forall y | y in Reverse(Filter(init, CtasOne)) + Filter(init, NotCtasOne) ::
              IsCtasOne(y) || CalculatePriority(y, now) <= CalculatePriority(t, now)
  {
    var rc, rn := Reverse(Filter(init, CtasOne)), Filter(init, NotCtasOne);
    ReverseMembers(Filter(init, CtasOne));
    FilterMembers(init, CtasOne);
    FilterMembers(init, NotCtasOne);
    forall y | y in rc + rn
      ensures IsCtasOne(y) || CalculatePriority(y, now) <= CalculatePriority(t, now)
    {
      if y !in rc {
        var i :| 0 <= i < |init| && init[i] == y;
      }
    }
  }

  /** A task no non-CTAS-1 entry outscores is appended at the end. */
  lemma AppendWhenNoneGreater(r: seq<Task>, t: Task, now: real)
    requires !IsCtasOne(t)
    requires forall y | y in r :: IsCtasOne(y) || CalculatePriority(y, now) <= CalculatePriority(t, now)
    ensures InsertOne(r, t, now) == r + [t]
  {
    assert r[..|r|] == r && r[|r|..] == [];
  }

  lemma {:induction false} ReverseMembers(s: seq<Task>)
    ensures forall t :: t in Reverse(s) ==> t in s
  {
    if s != [] {
      ReverseMembers(s[..|s| - 1]);
    }
  }

  /**
   * The sort is not idempotent: a second pass with the same `now` turns the
   * CTAS-1 block back into input order and keeps the non-CTAS-1 part.
   */
  lemma SecondPass(tasks: seq<Task>, now: real)
    ensures Prioritized(Prioritized(tasks, now), now) ==
            Filter(tasks, CtasOne) + Filter(Prioritized(tasks, now), NotCtasOne)
  {
    var p := Prioritized(tasks, now);
    PrioritizedOrdered(tasks, now);
    CtasOneReversed(tasks, now);
    PrioritizeOrdered(p, now);
    ReverseReverse(Filter(tasks, CtasOne));
  }

  lemma {:induction false} ReverseCons(t: Task, s: seq<Task>)
    ensures Reverse([t] + s) == Reverse(s) + [t]
  {
    if s != [] {
      var init := s[..|s| - 1];
      assert ([t] + s)[..|s|] == [t] + init;
      ReverseCons(t, init);
    }
  }

  lemma {:induction false} ReverseReverse(s: seq<Task>)
    ensures Reverse(Reverse(s)) == s
  {
    if s != [] {
      var init, t := s[..|s| - 1], s[|s| - 1];
      ReverseReverse(init);
      ReverseCons(t, Reverse(init));
      assert s == init + [t];
    }
  }

  /** Of two CTAS-1 tasks, the later one in the input comes out first. */
  lemma LaterCtasOneFirst(a: Task, b: Task, now: real)
    requires IsCtasOne(a) && IsCtasOne(b)
    ensures Prioritized([a, b], now) == [b, a]
  {
    assert [a, b][..1] == [a];
    assert [a][..0] == [];
    assert Prioritized([a], now) == InsertOne([], a, now) == [a];
  }

  /** A CTAS-3 task followed in the input by a CTAS-1 task: one prioritisation puts the CTAS-1 task at position 0. */
  lemma CtasOneJumpsQueue(a: Task, b: Task, now: real)
    requires a.ctas == 3 && b.ctas == 1
    ensures Prioritized([a, b], now) == [b, a]
  {
    assert [a, b][..1] == [a];
    assert [a][..0] == [];
    assert Prioritized([a], now) == InsertOne([], a, now) == [a];
  }
}
