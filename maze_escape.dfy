/**
 * The maze escape of lab3/RK1.py: `starters` marks the start cell, and
 * `search_for_path` runs a breadth-first search with a list used as a FIFO
 * queue of (x, y, distance) entries and a list of visited cells, stopping at
 * the first border cell other than the start.
 *
 * The reference for the search is `Reach(k)`, the set of cells reachable
 * from the start in at most k moves through free cells; `PathReach` ties it
 * to explicit paths.
 */
module MazeEscape {
  import opened Wrappers

  type Cell = (int, int)

  /** A queue entry: a cell and its distance from the start. */
  type Entry = (int, int, nat)

  /** A free cell of the maze; every other character is a wall. */
  const Free: char := '.'

  /** The character `starters` writes at the start cell. */
  const StartMark: char := 'O'

  /** `starters` always starts at row 2, column 4. */
  const StartCell: Cell := (2, 4)

  /** The order in which `search_for_path` tries the four moves. */
  const Directions: seq<Cell> := [(0, 1), (1, 0), (0, -1), (-1, 0)]

  function Neighbour(c: Cell, k: nat): Cell
    requires k < 4
  {
    (c.0 + Directions[k].0, c.1 + Directions[k].1)
  }

  predicate InGrid(lab: array2<char>, c: Cell)
  {
    0 <= c.0 < lab.Length0 && 0 <= c.1 < lab.Length1
  }

  predicate Open(lab: array2<char>, c: Cell)
    reads lab
  {
    InGrid(lab, c) && lab[c.0, c.1] == Free
  }

  predicate OnBorder(lab: array2<char>, c: Cell)
  {
    c.0 == 0 || c.0 == lab.Length0 - 1 || c.1 == 0 || c.1 == lab.Length1 - 1
  }

  /** A cell at which the search stops: on the border and not the start. */
  predicate IsExit(lab: array2<char>, s: Cell, c: Cell)
  {
    OnBorder(lab, c) && c != s
  }

  /** `c` is one move away from some cell of `r`. */
  predicate Touches(c: Cell, r: set<Cell>)
  {
    (c.0, c.1 - 1) in r || (c.0 - 1, c.1) in r || (c.0, c.1 + 1) in r || (c.0 + 1, c.1) in r
  }

  /** Every cell of the grid. */
  ghost function Cells(lab: array2<char>): set<Cell>
  {
    set x, y | 0 <= x < lab.Length0 && 0 <= y < lab.Length1 :: (x, y)
  }

  /** The free cells one move away from `r`. */
  ghost function Step(lab: array2<char>, r: set<Cell>): set<Cell>
    reads lab
  {
    set c | c in Cells(lab) && Open(lab, c) && Touches(c, r)
  }

  /** The cells reachable from `s` in at most `k` moves through free cells. */
  ghost function Reach(lab: array2<char>, s: Cell, k: nat): set<Cell>
    reads lab
  {
    if k == 0 then {s} else Reach(lab, s, k - 1) + Step(lab, Reach(lab, s, k - 1))
  }

  /** No exit is reachable in `k` moves or fewer. */
  ghost predicate NoExitWithin(lab: array2<char>, s: Cell, k: nat)
    reads lab
  {
    forall c :: c in Reach(lab, s, k) ==> !IsExit(lab, s, c)
  }

  /** `b` is one move up, down, left or right of `a`. */
  predicate Adjacent(a: Cell, b: Cell)
  {
    (a.0 == b.0 && (a.1 - b.1 == 1 || b.1 - a.1 == 1)) ||
    (a.1 == b.1 && (a.0 - b.0 == 1 || b.0 - a.0 == 1))
  }

  /** `p` is a walk from `s` through free cells, one move at a time. */
  ghost predicate IsWalk(lab: array2<char>, s: Cell, p: seq<Cell>)
    reads lab
  {
    && |p| > 0 && p[0] == s
    && (forall i :: 0 < i < |p| ==> Open(lab, p[i]))
    && (forall i, j :: 0 <= i < j < |p| && j == i + 1 ==> Adjacent(p[i], p[j]))
  }

  /**
   * `e` is a free exit cell reachable in `distance` moves, and no exit is
   * reachable in fewer.
   */
  ghost predicate ShortestExit(lab: array2<char>, s: Cell, distance: nat, e: Cell)
    reads lab
  {
    IsExit(lab, s, e) && Open(lab, e) && e in Reach(lab, s, distance) &&
    distance > 0 && NoExitWithin(lab, s, distance - 1)
  }

  /** What `search_for_path` returns: `(True, distance, (x + 1, y + 1))` or `(False, None, None)`. */
  datatype Outcome = Found(distance: nat, exit: Cell) | NotFound

  /**
   * `starters`: writes 'O' at row 2, column 4 and returns that position;
   * indexing a smaller maze raises IndexError.
   */
  method Starters(lab: array2<char>) returns (r: Result<Cell>)
    modifies lab
    ensures r.Ok? <==> InGrid(lab, StartCell)
    ensures r.Err? ==> r.error == IndexError
    ensures r.Ok? ==> r.value == StartCell && lab[StartCell.0, StartCell.1] == StartMark
    ensures forall i, j :: 0 <= i < lab.Length0 && 0 <= j < lab.Length1 && (i, j) != StartCell ==>
      lab[i, j] == old(lab[i, j])
  {
    if InGrid(lab, StartCell) {
      lab[StartCell.0, StartCell.1] := StartMark;
      r := Ok(StartCell);
    } else {
      r := Err(IndexError);
    }
  }

  /**
   * `search_for_path`: finds an exit exactly when one is reachable, reports
   * it in 1-based coordinates, and its distance is the least number of moves
   * to any exit.
   */
  method SearchForPath(lab: array2<char>, sx: int, sy: int) returns (r: Outcome)
    ensures r.Found? ==> exists e :: ShortestExit(lab, (sx, sy), r.distance, e) && r.exit == OneBased(e)
    ensures r.NotFound? <==> forall k: nat :: NoExitWithin(lab, (sx, sy), k)
  {
    var s := (sx, sy);
    var queue: seq<Entry> := [(sx, sy, 0)];
    var visited: seq<Cell> := [];
    ghost var level: nat := 0;
    ghost var universe := Universe(lab, s);
    StartInv(lab, s);
    while queue != []
      invariant SearchInv(lab, s, queue, visited, level)
      invariant Elems(visited) <= universe
      decreases |universe - Elems(visited)|, |queue|
    {
      level := NextLevel(lab, s, queue, visited, level);
      var x, y, distance := queue[0].0, queue[0].1, queue[0].2;
      ghost var q0, v0 := queue, visited;
      queue := queue[1..];
      if (x, y) in visited {
        assert SearchInv(lab, s, queue, visited, level) by {
          SkipKeepsInv(lab, s, q0, visited, level);
        }
        continue;
      }
      if x == 0 || x == lab.Length0 - 1 || y == 0 || y == lab.Length1 - 1 {
        if (x, y) != s {
          r := Found(distance, OneBased((x, y)));
          assert ShortestExit(lab, (sx, sy), r.distance, (x, y)) && !NoExitWithin(lab, (sx, sy), r.distance) by {
            FoundIsShortest(lab, s, q0, visited, level);
          }
          return;
        }
      }
      visited := visited + [(x, y)];
      queue := Expand(lab, (x, y), distance, visited, queue);
      VisitKeepsInv(lab, s, q0, v0, level, universe);
    }
    EmptyMeansUnreachable(lab, s, visited, level);
    return NotFound;
  }

  /** The 1-based coordinates `search_for_path` reports. */
  function OneBased(c: Cell): Cell
  {
    (c.0 + 1, c.1 + 1)
  }

  /** The entries one expansion of `c` appends, over the first `k` directions. */
  function Expansion(lab: array2<char>, c: Cell, d: nat, visited: seq<Cell>, k: nat): seq<Entry>
    requires k <= 4
    reads lab
  {
    if k == 0 then []
    else
      var n := Neighbour(c, k - 1);
      Expansion(lab, c, d, visited, k - 1) + (if Open(lab, n) && n !in visited then [(n.0, n.1, d + 1)] else [])
  }

  /** The `for move_x, move_y in directions` loop: queue the free, unvisited neighbours. */
  method Expand(lab: array2<char>, c: Cell, distance: nat, visited: seq<Cell>, queue: seq<Entry>)
    returns (queue': seq<Entry>)
    ensures queue' == queue + Expansion(lab, c, distance, visited, 4)
  {
    queue' := queue;
    for k := 0 to 4
      invariant queue' == queue + Expansion(lab, c, distance, visited, k)
    {
      var next := Neighbour(c, k);
      if 0 <= next.0 < lab.Length0 && 0 <= next.1 < lab.Length1 && lab[next.0, next.1] == Free && next !in visited {
        queue' := queue' + [(next.0, next.1, distance + 1)];
      }
    }
  }

  function Elems(v: seq<Cell>): set<Cell>
  {
    set c | c in v
  }

  lemma ElemsAppend(v: seq<Cell>, c: Cell)
    ensures Elems(v + [c]) == Elems(v) + {c}
  {
  }

  /** The cells of the queue entries at distance `d`. */
  function QueueCells(q: seq<Entry>, d: nat): set<Cell>
  {
    set i | 0 <= i < |q| && q[i].2 == d :: (q[i].0, q[i].1)
  }

  /** The cells of all queue entries. */
  function AllCells(q: seq<Entry>): set<Cell>
  {
    set i | 0 <= i < |q| :: (q[i].0, q[i].1)
  }

  /** The cells the search can ever see: the grid and the start. */
  ghost function Universe(lab: array2<char>, s: Cell): set<Cell>
  {
    {s} + Cells(lab)
  }

  /**
   * The loop invariant of `search_for_path`, with `level` the distance of
   * the entries being popped:
   * - queue distances are `level` or `level + 1`, the smaller ones first,
   *   and each entry's cell is reachable within its distance;
   * - visited cells are distinct and none of them is an exit;
   * - every cell within `level` moves is visited or queued at `level`, and
   *   every cell within `level - 1` moves is visited;
   * - every free neighbour of a visited cell is visited or queued.
   */
  ghost predicate SearchInv(lab: array2<char>, s: Cell, queue: seq<Entry>, visited: seq<Cell>, level: nat)
    reads lab
  {
    && QueueInv(lab, s, queue, level)
    && VisitedInv(lab, s, visited)
    && Covered(lab, s, queue, visited, level)
    && (level > 0 ==> Settled(lab, s, visited, level - 1))
    && Closed(lab, queue, visited)
  }

  ghost predicate QueueInv(lab: array2<char>, s: Cell, queue: seq<Entry>, level: nat)
    reads lab
  {
    && (forall i :: 0 <= i < |queue| ==>
          (queue[i].2 == level || queue[i].2 == level + 1) && (queue[i].0, queue[i].1) in Reach(lab, s, queue[i].2))
    && (forall i, j :: 0 <= i < j < |queue| && queue[i].2 == level + 1 ==> queue[j].2 == level + 1)
  }

  ghost predicate VisitedInv(lab: array2<char>, s: Cell, visited: seq<Cell>)
  {
    Distinct(visited) && forall v :: v in visited ==> !IsExit(lab, s, v)
  }

  ghost predicate Covered(lab: array2<char>, s: Cell, queue: seq<Entry>, visited: seq<Cell>, level: nat)
    reads lab
  {
    forall c {:trigger c in Reach(lab, s, level)} :: c in Reach(lab, s, level) ==>
      c in visited || c in QueueCells(queue, level)
  }

  ghost predicate Settled(lab: array2<char>, s: Cell, visited: seq<Cell>, k: nat)
    reads lab
  {
    forall c {:trigger c in Reach(lab, s, k)} :: c in Reach(lab, s, k) ==> c in visited
  }

  ghost predicate Closed(lab: array2<char>, queue: seq<Entry>, visited: seq<Cell>)
    reads lab
  {
    forall v, k {:trigger Neighbour(v, k), v in visited} :: v in visited && k < 4 && Open(lab, Neighbour(v, k)) ==>
      Neighbour(v, k) in visited || Neighbour(v, k) in AllCells(queue)
  }

  lemma StepMembership(lab: array2<char>, r: set<Cell>, c: Cell)
    ensures c in Step(lab, r) <==> Open(lab, c) && Touches(c, r)
  {
    if Open(lab, c) {
      var x, y := c.0, c.1;
      assert (x, y) in Cells(lab);
    }
  }

  lemma StepMono(lab: array2<char>, a: set<Cell>, b: set<Cell>)
    requires a <= b
    ensures Step(lab, a) <= Step(lab, b)
  {
    forall c | c in Step(lab, a) ensures c in Step(lab, b) {
      StepMembership(lab, a, c);
      StepMembership(lab, b, c);
    }
  }

  /** A cell touching `r` is one of the four moves from a cell of `r`. */
  lemma TouchedFrom(c: Cell, r: set<Cell>) returns (from: Cell, k: nat)
    requires Touches(c, r)
    ensures from in r && k < 4 && c == Neighbour(from, k) && Adjacent(from, c)
  {
    if (c.0, c.1 - 1) in r {
      from, k := (c.0, c.1 - 1), 0;
    } else if (c.0 - 1, c.1) in r {
      from, k := (c.0 - 1, c.1), 1;
    } else if (c.0, c.1 + 1) in r {
      from, k := (c.0, c.1 + 1), 2;
    } else {
      from, k := (c.0 + 1, c.1), 3;
    }
  }

  /** Each of the four moves from `c` to a free cell is a step from `{c}`. */
  lemma NeighbourIsStep(lab: array2<char>, c: Cell, k: nat)
    requires k < 4 && Open(lab, Neighbour(c, k))
    ensures Neighbour(c, k) in Step(lab, {c})
  {
    StepMembership(lab, {c}, Neighbour(c, k));
  }

  lemma {:induction false} ReachMono(lab: array2<char>, s: Cell, i: nat, j: nat)
    requires i <= j
    ensures Reach(lab, s, i) <= Reach(lab, s, j)
    decreases j
  {
    if i < j {
      ReachMono(lab, s, i, j - 1);
    }
  }

  lemma {:induction false} ReachInUniverse(lab: array2<char>, s: Cell, k: nat, c: Cell)
    requires c in Reach(lab, s, k)
    ensures c == s || Open(lab, c)
    ensures c in Universe(lab, s)
    decreases k
  {
    if k > 0 {
      if c in Reach(lab, s, k - 1) {
        ReachInUniverse(lab, s, k - 1, c);
      } else {
        StepMembership(lab, Reach(lab, s, k - 1), c);
      }
    }
  }

  /** A set containing the start and closed under moves holds every reachable cell. */
  lemma {:induction false} ClosedHoldsReach(lab: array2<char>, s: Cell, v: set<Cell>, k: nat)
    requires s in v && Step(lab, v) <= v
    ensures Reach(lab, s, k) <= v
    decreases k
  {
    if k > 0 {
      ClosedHoldsReach(lab, s, v, k - 1);
      StepMono(lab, Reach(lab, s, k - 1), v);
    }
  }

  lemma CardShrinks(u: set<Cell>, v: set<Cell>, c: Cell)
    requires c in u && c !in v
    ensures |u - (v + {c})| < |u - v|
  {
    assert u - (v + {c}) == (u - v) - {c};
  }

  /** Each appended entry is a free, unvisited neighbour of `c` at distance `d + 1`. */
  lemma {:induction false} ExpansionSound(lab: array2<char>, c: Cell, d: nat, visited: seq<Cell>, k: nat)
    requires k <= 4
    ensures forall i :: 0 <= i < |Expansion(lab, c, d, visited, k)| ==>
      var e := Expansion(lab, c, d, visited, k)[i];
      e.2 == d + 1 && (e.0, e.1) in Step(lab, {c})
  {
    if k > 0 {
      ExpansionSound(lab, c, d, visited, k - 1);
      var n := Neighbour(c, k - 1);
      if Open(lab, n) {
        NeighbourIsStep(lab, c, k - 1);
      }
    }
  }

  /** Every free, unvisited neighbour of `c` among the first `k` directions is appended. */
  lemma {:induction false} ExpansionComplete(lab: array2<char>, c: Cell, d: nat, visited: seq<Cell>, k: nat)
    requires k <= 4
    ensures forall j :: 0 <= j < k && Open(lab, Neighbour(c, j)) && Neighbour(c, j) !in visited ==>
      Neighbour(c, j) in AllCells(Expansion(lab, c, d, visited, k))
  {
    if k > 0 {
      ExpansionComplete(lab, c, d, visited, k - 1);
      var e := Expansion(lab, c, d, visited, k);
      var e' := Expansion(lab, c, d, visited, k - 1);
      forall j | 0 <= j < k && Open(lab, Neighbour(c, j)) && Neighbour(c, j) !in visited
        ensures Neighbour(c, j) in AllCells(e)
      {
        if j < k - 1 {
          var i :| 0 <= i < |e'| && (e'[i].0, e'[i].1) == Neighbour(c, j);
          assert e[i] == e'[i];
        } else {
          assert e[|e| - 1].0 == Neighbour(c, j).0 && e[|e| - 1].1 == Neighbour(c, j).1;
        }
      }
    }
  }

  /** The invariant holds before the first iteration. */
  lemma StartInv(lab: array2<char>, s: Cell)
    ensures SearchInv(lab, s, [(s.0, s.1, 0)], [], 0)
  {
    var q: seq<Entry> := [(s.0, s.1, 0)];
    assert Reach(lab, s, 0) == {s};
    assert (q[0].0, q[0].1) in QueueCells(q, 0);
  }

  /**
   * The level of the head entry: when only entries at `level + 1` remain,
   * every cell within `level` moves has been visited and the search moves
   * on to the next level.
   */
  lemma NextLevel(lab: array2<char>, s: Cell, queue: seq<Entry>, visited: seq<Cell>, level: nat)
    returns (level': nat)
    requires SearchInv(lab, s, queue, visited, level)
    requires queue != []
    ensures SearchInv(lab, s, queue, visited, level') && queue[0].2 == level'
  {
    if queue[0].2 == level {
      return level;
    }
    forall i | 0 <= i < |queue| ensures queue[i].2 == level + 1 {
      if i > 0 {
        assert queue[0].2 == level + 1;
      }
    }
    assert QueueCells(queue, level + 1) == AllCells(queue);
    assert QueueCells(queue, level) == {};
    forall c | c in Reach(lab, s, level + 1) ensures c in visited || c in QueueCells(queue, level + 1) {
      if c !in Reach(lab, s, level) {
        StepMembership(lab, Reach(lab, s, level), c);
        var from, k := TouchedFrom(c, Reach(lab, s, level));
        assert from in visited;
      }
    }
    return level + 1;
  }

  /** Popping an entry whose cell is already visited keeps the invariant. */
  lemma SkipKeepsInv(lab: array2<char>, s: Cell, queue: seq<Entry>, visited: seq<Cell>, level: nat)
    requires SearchInv(lab, s, queue, visited, level)
    requires queue != [] && queue[0].2 == level && (queue[0].0, queue[0].1) in visited
    ensures SearchInv(lab, s, queue[1..], visited, level)
  {
    PopCells(queue, [], level);
    assert queue[1..] + [] == queue[1..];
    QueueTail(lab, s, queue, level);
  }

  /** Dropping the head of the queue keeps the queue part of the invariant. */
  lemma QueueTail(lab: array2<char>, s: Cell, queue: seq<Entry>, level: nat)
    requires QueueInv(lab, s, queue, level) && queue != []
    ensures QueueInv(lab, s, queue[1..], level)
  {
    forall i, j | 0 <= i < j < |queue| - 1 && queue[1..][i].2 == level + 1 ensures queue[1..][j].2 == level + 1 {
      assert queue[1..][i] == queue[i + 1] && queue[1..][j] == queue[j + 1];
    }
  }

  /** The first exit popped is reachable, and no exit is closer. */
  lemma FoundIsShortest(lab: array2<char>, s: Cell, queue: seq<Entry>, visited: seq<Cell>, level: nat)
    requires SearchInv(lab, s, queue, visited, level)
    requires queue != [] && queue[0].2 == level && (queue[0].0, queue[0].1) !in visited
    requires IsExit(lab, s, (queue[0].0, queue[0].1))
    ensures ShortestExit(lab, s, level, (queue[0].0, queue[0].1))
    ensures !NoExitWithin(lab, s, level)
  {
    var c := (queue[0].0, queue[0].1);
    ReachInUniverse(lab, s, level, c);
  }

  /** Visiting and expanding the popped cell keeps the invariant and shrinks the unvisited cells. */
  lemma VisitKeepsInv(lab: array2<char>, s: Cell, queue: seq<Entry>, visited: seq<Cell>, level: nat, universe: set<Cell>)
    requires SearchInv(lab, s, queue, visited, level) && Elems(visited) <= universe && universe == Universe(lab, s)
    requires queue != [] && queue[0].2 == level
    requires (queue[0].0, queue[0].1) !in visited && !IsExit(lab, s, (queue[0].0, queue[0].1))
    ensures var c := (queue[0].0, queue[0].1);
      SearchInv(lab, s, queue[1..] + Expansion(lab, c, level, visited + [c], 4), visited + [c], level) &&
      Elems(visited + [c]) <= universe && |universe - Elems(visited + [c])| < |universe - Elems(visited)|
  {
    var c := (queue[0].0, queue[0].1);
    ReachInUniverse(lab, s, level, c);
    CardShrinks(universe, Elems(visited), c);
    ElemsAppend(visited, c);
    ExpandKeepsInv(lab, s, queue, visited, level);
  }

  /** Visiting and expanding the popped cell keeps the invariant. */
  lemma ExpandKeepsInv(lab: array2<char>, s: Cell, queue: seq<Entry>, visited: seq<Cell>, level: nat)
    requires SearchInv(lab, s, queue, visited, level)
    requires queue != [] && queue[0].2 == level
    requires (queue[0].0, queue[0].1) !in visited && !IsExit(lab, s, (queue[0].0, queue[0].1))
    ensures var c := (queue[0].0, queue[0].1);
      SearchInv(lab, s, queue[1..] + Expansion(lab, c, level, visited + [c], 4), visited + [c], level)
  {
    var c := (queue[0].0, queue[0].1);
    var v' := visited + [c];
    var e := Expansion(lab, c, level, v', 4);
    var q' := queue[1..] + e;
    ExpandQueue(lab, s, queue, level, e, v');
    PopCells(queue, e, level);
    ExpandCloses(lab, c, level, v');
    assert VisitedInv(lab, s, v');
    assert Covered(lab, s, q', v', level);
    assert level > 0 ==> Settled(lab, s, v', level - 1);
    assert Closed(lab, q', v') by {
      forall v, k | v in v' && k < 4 && Open(lab, Neighbour(v, k))
        ensures Neighbour(v, k) in v' || Neighbour(v, k) in AllCells(q')
      {
        if v != c {
          assert v in visited;
        }
      }
    }
  }

  /** The queue after popping the head and appending its expansion. */
  lemma ExpandQueue(lab: array2<char>, s: Cell, queue: seq<Entry>, level: nat, e: seq<Entry>, v': seq<Cell>)
    requires QueueInv(lab, s, queue, level)
    requires queue != [] && queue[0].2 == level
    requires e == Expansion(lab, (queue[0].0, queue[0].1), level, v', 4)
    ensures QueueInv(lab, s, queue[1..] + e, level)
  {
    ExpansionReach(lab, s, (queue[0].0, queue[0].1), level, v');
    ExpandQueueEntries(lab, s, queue, level, e);
    ExpandQueueOrder(queue, level, e);
  }

  /** The expansion of a cell reachable within `d` moves queues cells reachable within `d + 1`. */
  lemma ExpansionReach(lab: array2<char>, s: Cell, c: Cell, d: nat, v': seq<Cell>)
    requires c in Reach(lab, s, d)
    ensures var e := Expansion(lab, c, d, v', 4);
      forall i :: 0 <= i < |e| ==> e[i].2 == d + 1 && (e[i].0, e[i].1) in Reach(lab, s, d + 1)
  {
    ExpansionSound(lab, c, d, v', 4);
    StepMono(lab, {c}, Reach(lab, s, d));
    assert Reach(lab, s, d + 1) == Reach(lab, s, d) + Step(lab, Reach(lab, s, d));
  }

  lemma ExpandQueueEntries(lab: array2<char>, s: Cell, queue: seq<Entry>, level: nat, e: seq<Entry>)
    requires QueueInv(lab, s, queue, level)
    requires queue != []
    requires forall i :: 0 <= i < |e| ==> e[i].2 == level + 1 && (e[i].0, e[i].1) in Reach(lab, s, level + 1)
    ensures var q' := queue[1..] + e; forall i :: 0 <= i < |q'| ==>
      (q'[i].2 == level || q'[i].2 == level + 1) && (q'[i].0, q'[i].1) in Reach(lab, s, q'[i].2)
  {
    var q' := queue[1..] + e;
    forall i | 0 <= i < |q'|
      ensures (q'[i].2 == level || q'[i].2 == level + 1) && (q'[i].0, q'[i].1) in Reach(lab, s, q'[i].2)
    {
      if i < |queue| - 1 {
        assert q'[i] == queue[i + 1];
      } else {
        assert q'[i] == e[i - (|queue| - 1)];
      }
    }
  }

  lemma ExpandQueueOrder(queue: seq<Entry>, level: nat, e: seq<Entry>)
    requires queue != []
    requires forall i, j :: 0 <= i < j < |queue| && queue[i].2 == level + 1 ==> queue[j].2 == level + 1
    requires forall i :: 0 <= i < |e| ==> e[i].2 == level + 1
    ensures var q' := queue[1..] + e;
      forall i, j :: 0 <= i < j < |q'| && q'[i].2 == level + 1 ==> q'[j].2 == level + 1
  {
    var q' := queue[1..] + e;
    forall i, j | 0 <= i < j < |q'| && q'[i].2 == level + 1 ensures q'[j].2 == level + 1 {
      if j < |queue| - 1 {
        assert q'[i] == queue[i + 1] && q'[j] == queue[j + 1];
      } else {
        assert q'[j] == e[j - (|queue| - 1)];
      }
    }
  }

  /** Popping the head loses at most its own cell; appending loses nothing. */
  lemma PopCells(queue: seq<Entry>, e: seq<Entry>, level: nat)
    requires queue != []
    ensures var c := (queue[0].0, queue[0].1);
      QueueCells(queue, level) <= QueueCells(queue[1..] + e, level) + {c} &&
      AllCells(queue) <= AllCells(queue[1..] + e) + {c} &&
      AllCells(e) <= AllCells(queue[1..] + e)
  {
    var c := (queue[0].0, queue[0].1);
    var q' := queue[1..] + e;
    forall x | x in QueueCells(queue, level) ensures x in QueueCells(q', level) + {c} {
      var i :| 0 <= i < |queue| && queue[i].2 == level && x == (queue[i].0, queue[i].1);
      if i > 0 {
        assert q'[i - 1] == queue[i];
      }
    }
    forall x | x in AllCells(queue) ensures x in AllCells(q') + {c} {
      var i :| 0 <= i < |queue| && x == (queue[i].0, queue[i].1);
      if i > 0 {
        assert q'[i - 1] == queue[i];
      }
    }
    forall x | x in AllCells(e) ensures x in AllCells(q') {
      var i :| 0 <= i < |e| && x == (e[i].0, e[i].1);
      assert q'[|queue| - 1 + i] == e[i];
    }
  }

  /** After the expansion every free neighbour of `c` is visited or queued. */
  lemma ExpandCloses(lab: array2<char>, c: Cell, d: nat, v': seq<Cell>)
    ensures forall k :: 0 <= k < 4 && Open(lab, Neighbour(c, k)) ==>
      Neighbour(c, k) in v' || Neighbour(c, k) in AllCells(Expansion(lab, c, d, v', 4))
  {
    ExpansionComplete(lab, c, d, v', 4);
  }

  /** With an empty queue the visited cells are closed under moves. */
  lemma ClosedIsStepClosed(lab: array2<char>, visited: seq<Cell>)
    requires Closed(lab, [], visited)
    ensures Step(lab, Elems(visited)) <= Elems(visited)
  {
    forall n | n in Step(lab, Elems(visited)) ensures n in Elems(visited) {
      StepMembership(lab, Elems(visited), n);
      var from, k := TouchedFrom(n, Elems(visited));
      assert from in visited;
    }
  }

  /** An empty queue means every reachable cell was visited, so no exit is reachable. */
  lemma EmptyMeansUnreachable(lab: array2<char>, s: Cell, visited: seq<Cell>, level: nat)
    requires SearchInv(lab, s, [], visited, level)
    ensures forall k: nat :: NoExitWithin(lab, s, k)
  {
    ReachMono(lab, s, 0, level);
    assert s in Reach(lab, s, 0);
    ClosedIsStepClosed(lab, visited);
    forall k: nat ensures NoExitWithin(lab, s, k) {
      ClosedHoldsReach(lab, s, Elems(visited), k);
    }
  }

  /** A cell is within `k` moves exactly when some walk of at most `k` moves ends there. */
  lemma PathReach(lab: array2<char>, s: Cell, k: nat, c: Cell)
    ensures c in Reach(lab, s, k) <==> exists p :: IsWalk(lab, s, p) && |p| <= k + 1 && p[|p| - 1] == c
  {
    if c in Reach(lab, s, k) {
      var p := ReachHasWalk(lab, s, k, c);
    }
    if p :| IsWalk(lab, s, p) && |p| <= k + 1 && p[|p| - 1] == c {
      WalkReaches(lab, s, k, p);
    }
  }

  lemma {:induction false} ReachHasWalk(lab: array2<char>, s: Cell, k: nat, c: Cell) returns (p: seq<Cell>)
    requires c in Reach(lab, s, k)
    ensures IsWalk(lab, s, p) && |p| <= k + 1 && p[|p| - 1] == c
    decreases k, 1
  {
    if k == 0 {
      p := [s];
    } else if c in Reach(lab, s, k - 1) {
      p := ReachHasWalk(lab, s, k - 1, c);
    } else {
      p := StepHasWalk(lab, s, k - 1, c);
    }
  }

  /** A cell one move beyond the cells within `k` moves ends a walk of at most `k + 1` moves. */
  lemma {:induction false} StepHasWalk(lab: array2<char>, s: Cell, k: nat, c: Cell) returns (p: seq<Cell>)
    requires c in Step(lab, Reach(lab, s, k))
    ensures IsWalk(lab, s, p) && |p| <= k + 2 && p[|p| - 1] == c
    decreases k + 1, 0
  {
    StepMembership(lab, Reach(lab, s, k), c);
    var from, j := TouchedFrom(c, Reach(lab, s, k));
    var p' := ReachHasWalk(lab, s, k, from);
    p := p' + [c];
    WalkExtend(lab, s, p', c);
  }

  lemma WalkExtend(lab: array2<char>, s: Cell, p: seq<Cell>, c: Cell)
    requires IsWalk(lab, s, p) && Open(lab, c) && Adjacent(p[|p| - 1], c)
    ensures IsWalk(lab, s, p + [c])
  {
    var q := p + [c];
    forall i, i' | 0 <= i < i' < |q| && i' == i + 1 ensures Adjacent(q[i], q[i']) {
      if i' < |p| {
        assert q[i] == p[i] && q[i'] == p[i'];
      }
    }
  }

  lemma {:induction false} WalkReaches(lab: array2<char>, s: Cell, k: nat, p: seq<Cell>)
    requires IsWalk(lab, s, p) && |p| <= k + 1
    ensures p[|p| - 1] in Reach(lab, s, k)
    decreases |p|
  {
    if |p| == 1 {
      ReachMono(lab, s, 0, k);
    } else {
      var p' := p[..|p| - 1];
      WalkPrefix(lab, s, p);
      WalkReaches(lab, s, k - 1, p');
      StepFromAdjacent(lab, Reach(lab, s, k - 1), p'[|p'| - 1], p[|p| - 1]);
    }
  }

  lemma WalkPrefix(lab: array2<char>, s: Cell, p: seq<Cell>)
    requires IsWalk(lab, s, p) && |p| > 1
    ensures IsWalk(lab, s, p[..|p| - 1]) && p[..|p| - 1][|p| - 2] == p[|p| - 2]
  {
    var p' := p[..|p| - 1];
    forall i, i' | 0 <= i < i' < |p'| && i' == i + 1 ensures Adjacent(p'[i], p'[i']) {
      assert p'[i] == p[i] && p'[i'] == p[i'];
    }
  }

  lemma StepFromAdjacent(lab: array2<char>, r: set<Cell>, from: Cell, c: Cell)
    requires from in r && Adjacent(from, c) && Open(lab, c)
    ensures c in Step(lab, r)
  {
    assert Touches(c, r);
    StepMembership(lab, r, c);
  }
}
