/** The flood fill that finds the largest group of touching hexagons, over any neighbour relation. */
module HexCluster {
  import opened Collections

  type Cell = string

  /** `gridDisk(cell, 1)`: the cell and the cells around it. */
  type Disk = Cell -> seq<Cell>

  ghost predicate Symmetric(disk: Disk) {
    forall a, b :: a in disk(b) <==> b in disk(a)
  }

  /** A walk inside `cells` from `a` to `b`, each step to a neighbour. */
  ghost predicate IsWalk(disk: Disk, cells: set<Cell>, a: Cell, b: Cell, walk: seq<Cell>) {
    && walk != [] && walk[0] == a && walk[|walk| - 1] == b
    && (forall i | 0 <= i < |walk| :: walk[i] in cells)
    && (forall i | 0 < i < |walk| :: walk[i] in disk(walk[i - 1]))
  }

  ghost predicate Touching(disk: Disk, cells: set<Cell>, a: Cell, b: Cell) {
    exists walk :: IsWalk(disk, cells, a, b, walk)
  }

  /** The whole group of cells that touch `a`, directly or through others. */
  ghost function Component(disk: Disk, cells: set<Cell>, a: Cell): set<Cell> {
    set b | b in cells && Touching(disk, cells, a, b)
  }

  ghost predicate ClosedIn(disk: Disk, cells: set<Cell>, part: set<Cell>) {
    forall c, n | c in part && n in cells && n in disk(c) :: n in part
  }

  lemma Extend(disk: Disk, cells: set<Cell>, a: Cell, b: Cell, n: Cell)
    requires Touching(disk, cells, a, b) && n in cells && n in disk(b)
    ensures Touching(disk, cells, a, n)
  {
    var walk :| IsWalk(disk, cells, a, b, walk);
    assert IsWalk(disk, cells, a, n, walk + [n]);
  }

  /** A walk that starts in a closed part never leaves it. */
  lemma {:induction false} WalkStays(disk: Disk, cells: set<Cell>, part: set<Cell>, a: Cell, b: Cell, walk: seq<Cell>)
    requires ClosedIn(disk, cells, part) && a in part && IsWalk(disk, cells, a, b, walk)
    ensures b in part
    decreases |walk|
  {
    if |walk| > 1 {
      WalkStays(disk, cells, part, a, walk[|walk| - 2], walk[..|walk| - 1]);
    }
  }

  lemma ClosedHoldsComponent(disk: Disk, cells: set<Cell>, part: set<Cell>, a: Cell)
    requires ClosedIn(disk, cells, part) && a in part
    ensures Component(disk, cells, a) <= part
  {
    forall b | b in Component(disk, cells, a) ensures b in part {
      var walk :| IsWalk(disk, cells, a, b, walk);
      WalkStays(disk, cells, part, a, b, walk);
    }
  }

  /** What is closed leaves the rest closed too, when neighbours are mutual. */
  lemma RestIsClosed(disk: Disk, cells: set<Cell>, part: set<Cell>)
    requires Symmetric(disk) && ClosedIn(disk, cells, part) && part <= cells
    ensures ClosedIn(disk, cells, cells - part)
  {
  }

  /** Neighbours are mutual, so the components of two touching cells are the same set. */
  lemma SameComponent(disk: Disk, cells: set<Cell>, a: Cell, b: Cell)
    requires Symmetric(disk) && a in cells && b in Component(disk, cells, a)
    ensures Component(disk, cells, b) == Component(disk, cells, a)
  {
    ComponentIsClosed(disk, cells, a);
    ClosedHoldsComponent(disk, cells, Component(disk, cells, a), b);
    ComponentIsClosed(disk, cells, b);
    var rest := cells - Component(disk, cells, b);
    RestIsClosed(disk, cells, Component(disk, cells, b));
    assert IsWalk(disk, cells, b, b, [b]);
    if a in rest {
      ClosedHoldsComponent(disk, cells, rest, a);
      assert false;
    }
    ClosedHoldsComponent(disk, cells, Component(disk, cells, b), a);
  }

  lemma ComponentIsClosed(disk: Disk, cells: set<Cell>, a: Cell)
    ensures ClosedIn(disk, cells, Component(disk, cells, a))
  {
    forall c, n | c in Component(disk, cells, a) && n in cells && n in disk(c) ensures n in Component(disk, cells, a) {
      Extend(disk, cells, a, c, n);
    }
  }

  /** The state of one flood fill: `group` is reached from `start`, and its cells before `done` have no neighbour left. */
  ghost predicate Filling(disk: Disk, cells: set<Cell>, start: Cell, left0: set<Cell>, left: set<Cell>, group: seq<Cell>, done: nat) {
    && done <= |group| && group != [] && group[0] == start && Distinct(group)
    && left == left0 - Elems(group) && Elems(group) <= left0
    && (forall i | 0 <= i < |group| :: Touching(disk, cells, start, group[i]))
    && (forall i, n | 0 <= i < done && n in left :: n !in disk(group[i]))
  }

  lemma FilledIsComponent(disk: Disk, cells: set<Cell>, start: Cell, left0: set<Cell>, left: set<Cell>, group: seq<Cell>)
    requires left0 <= cells && ClosedIn(disk, cells, left0) && Filling(disk, cells, start, left0, left, group, |group|)
    ensures Elems(group) == Component(disk, cells, start)
    ensures ClosedIn(disk, cells, Elems(group))
  {
    forall c, n | c in Elems(group) && n in cells && n in disk(c) ensures n in Elems(group) {
      var i :| 0 <= i < |group| && group[i] == c;
      assert n in left0 && n in disk(group[i]) && n !in left;
    }
    ClosedHoldsComponent(disk, cells, Elems(group), start);
  }

  lemma GroupGrows(disk: Disk, cells: set<Cell>, start: Cell, left0: set<Cell>, left: set<Cell>, group: seq<Cell>, done: nat, n: Cell)
    requires left0 <= cells && Filling(disk, cells, start, left0, left, group, done) && done < |group|
    requires n in left && n in disk(group[done])
    ensures Filling(disk, cells, start, left0, left - {n}, group + [n], done)
  {
    Extend(disk, cells, start, group[done], n);
    ElemsSnoc(group, n);
    assert forall i | 0 <= i < |group| :: group[i] in Elems(group);
  }

  lemma FillStarts(disk: Disk, cells: set<Cell>, start: Cell, left0: set<Cell>)
    requires start in left0 && left0 <= cells
    ensures Filling(disk, cells, start, left0, left0 - {start}, [start], 0)
  {
    assert IsWalk(disk, cells, start, start, [start]);
  }

  lemma CellDone(disk: Disk, cells: set<Cell>, start: Cell, left0: set<Cell>, left: set<Cell>, group: seq<Cell>, done: nat)
    requires Filling(disk, cells, start, left0, left, group, done) && done < |group|
    requires forall n | n in disk(group[done]) :: n !in left
    ensures Filling(disk, cells, start, left0, left, group, done + 1)
  {
  }

  /** The fill of one group: both loops end, although the outer one walks the list the inner one grows. */
  method Fill(disk: Disk, ghost cells: set<Cell>, start: Cell, left0: set<Cell>) returns (group: seq<Cell>, left: set<Cell>)
    requires start in left0 && left0 <= cells && ClosedIn(disk, cells, left0)
    ensures Distinct(group) && Elems(group) == Component(disk, cells, start)
    ensures left == left0 - Elems(group) && start in Elems(group)
  {
    left := left0 - {start};
    group := [start];
    FillStarts(disk, cells, start, left0);
    var i := 0;
    while i < |group|
      invariant Filling(disk, cells, start, left0, left, group, i)
      decreases |left|, |group| - i
    {
      var around := disk(group[i]);
      ghost var size, here, len := |left|, group[i], |group|;
      for j := 0 to |around|
        invariant Filling(disk, cells, start, left0, left, group, i) && i < |group| && group[i] == here
        invariant forall m | 0 <= m < j :: around[m] !in left
        invariant |left| < size || (|left| == size && |group| == len)
      {
        if around[j] in left {
          GroupGrows(disk, cells, start, left0, left, group, i, around[j]);
          left := left - {around[j]};
          group := group + [around[j]];
        }
      }
      CellDone(disk, cells, start, left0, left, group, i);
      i := i + 1;
    }
    FilledIsComponent(disk, cells, start, left0, left, group);
    assert group[0] in Elems(group);
  }

  lemma GroupIsComponent(disk: Disk, all: set<Cell>, start: Cell, group: seq<Cell>)
    requires Symmetric(disk) && start in all && Distinct(group) && Elems(group) == Component(disk, all, start)
    ensures forall c | c in Elems(group) :: Component(disk, all, c) == Elems(group) && |Component(disk, all, c)| == |group|
  {
    DistinctSize(group);
    forall c | c in Elems(group) { SameComponent(disk, all, start, c); }
  }

  /** `best` is a component, and as large as any that lies outside `left`, which no component crosses. */
  ghost predicate Searched(disk: Disk, all: set<Cell>, left: set<Cell>, best: seq<Cell>) {
    && left <= all && ClosedIn(disk, all, left)
    && (best == [] <==> left == all)
    && Distinct(best) && Elems(best) <= all
    && (forall c | c in best :: Elems(best) == Component(disk, all, c))
    && (forall c | c in all - left :: |Component(disk, all, c)| <= |best|)
  }

  lemma RemainderIsClosed(disk: Disk, all: set<Cell>, left: set<Cell>, part: set<Cell>)
    requires Symmetric(disk) && part <= left <= all && ClosedIn(disk, all, left) && ClosedIn(disk, all, part)
    ensures ClosedIn(disk, all, left - part)
  {
    RestIsClosed(disk, all, part);
  }

  lemma SearchGoesOn(disk: Disk, all: set<Cell>, left: set<Cell>, best: seq<Cell>, start: Cell, group: seq<Cell>)
    requires Symmetric(disk) && Searched(disk, all, left, best) && start in left
    requires Distinct(group) && Elems(group) == Component(disk, all, start) && start in Elems(group)
    ensures Searched(disk, all, left - Elems(group), if |group| > |best| then group else best)
  {
    ClosedHoldsComponent(disk, all, left, start);
    ComponentIsClosed(disk, all, start);
    RemainderIsClosed(disk, all, left, Elems(group));
    GroupIsComponent(disk, all, start, group);
    var best' := if |group| > |best| then group else best;
    assert |group| > 0 && start !in left - Elems(group);
    forall c | c in all - (left - Elems(group)) ensures |Component(disk, all, c)| <= |best'| {
      if c in left { assert c in Elems(group); } else { assert c in all - left; }
    }
    forall c | c in best' ensures Elems(best') == Component(disk, all, c) {
      if best' == group { assert c in Elems(group); }
    }
  }

  /**
   * A largest group of touching cells: the whole component of each of its cells, and no component of the input
   * is larger.
   */
  method LargestCluster(cells: seq<Cell>, disk: Disk) returns (best: seq<Cell>)
    requires Symmetric(disk)
    ensures best == [] <==> cells == []
    ensures Distinct(best) && Elems(best) <= Elems(cells)
    ensures forall c | c in best :: Elems(best) == Component(disk, Elems(cells), c)
    ensures forall c | c in cells :: |Component(disk, Elems(cells), c)| <= |best|
  {
    var all := Elems(cells);
    var left := all;
    best := [];
    while left != {}
      invariant Searched(disk, all, left, best)
      decreases |left|
    {
      var start :| start in left;
      var group, rest := Fill(disk, all, start, left);
      SearchGoesOn(disk, all, left, best, start, group);
      SubsetSize(rest, left - {start});
      left := rest;
      if |group| > |best| { best := group; }
    }
    if cells != [] { assert cells[0] in all; }
  }
}
