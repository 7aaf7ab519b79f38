/**
 * The cube graph and the greedy "unfolding" walk of practice/cube.py:
 * the vertices are the 8 triples over {0, 1}, the edges the pairs of
 * vertices that differ in one coordinate, and the walk repeatedly takes the
 * first edge of the last added vertex that leads to an unvisited vertex.
 */
module CubeUnfolding {
  import opened Wrappers

  datatype Vertex = Vertex(x: int, y: int, z: int)
  type Edge = (Vertex, Vertex)

  /** The number of faces the walk collects (`while len(unfolding) < 6`). */
  const Faces: nat := 6

  function Abs(n: int): nat { if n < 0 then -n else n }

  /** sum(|a - b| for a, b in zip(v1, v2)) */
  function Manhattan(u: Vertex, v: Vertex): nat
  {
    Abs(u.x - v.x) + Abs(u.y - v.y) + Abs(u.z - v.z)
  }

  predicate IsBit(n: int) { n == 0 || n == 1 }

  predicate IsCubeVertex(v: Vertex) { IsBit(v.x) && IsBit(v.y) && IsBit(v.z) }

  /** Strict lexicographic order on triples, the order Python compares tuples in. */
  predicate LexLess(u: Vertex, v: Vertex)
  {
    u.x < v.x || (u.x == v.x && (u.y < v.y || (u.y == v.y && u.z < v.z)))
  }

  /** [(x, y, z) for x in range(2) for y in range(2) for z in range(2)] */
  function Vertices(): (vs: seq<Vertex>)
  {
    seq(8, i requires 0 <= i < 8 => Vertex(i / 4, (i / 2) % 2, i % 2))
  }

  /** The vertex list is the 8 triples over {0, 1}, each once, in lexicographic order. */
  lemma VerticesAreTheCube()
    ensures |Vertices()| == 8
    ensures forall i :: 0 <= i < 8 ==> IsCubeVertex(Vertices()[i])
    ensures forall i, j :: 0 <= i < j < 8 ==> LexLess(Vertices()[i], Vertices()[j])
    ensures forall v :: IsCubeVertex(v) <==> v in Vertices()
  {
    var vs := Vertices();
    assert vs == [Vertex(0, 0, 0), Vertex(0, 0, 1), Vertex(0, 1, 0), Vertex(0, 1, 1),
                  Vertex(1, 0, 0), Vertex(1, 0, 1), Vertex(1, 1, 0), Vertex(1, 1, 1)];
    forall v | IsCubeVertex(v) ensures v in vs {
      assert v == vs[4 * v.x + 2 * v.y + v.z];
    }
  }

  /** The pairs combinations(vs, 2) yields with v as first member, rest the later elements. */
  function Row(v: Vertex, rest: seq<Vertex>): (r: seq<Edge>)
    ensures |r| == |rest|
  {
    seq(|rest|, j requires 0 <= j < |rest| => (v, rest[j]))
  }

  /** itertools.combinations(vs, 2): every pair (vs[i], vs[j]) with i < j, in order. */
  function Pairs(vs: seq<Vertex>): seq<Edge>
    decreases |vs|
  {
    if vs == [] then [] else Row(vs[0], vs[1..]) + Pairs(vs[1..])
  }

  /** The pairs are exactly the index-ordered pairs of elements. */
  lemma {:induction false} PairsMembership(vs: seq<Vertex>, e: Edge)
    ensures e in Pairs(vs) <==> exists i, j :: 0 <= i < j < |vs| && e == (vs[i], vs[j])
    decreases |vs|
  {
    if vs != [] {
      PairsMembership(vs[1..], e);
      if e in Pairs(vs) {
        if e in Row(vs[0], vs[1..]) {
          var j :| 0 <= j < |vs| - 1 && Row(vs[0], vs[1..])[j] == e;
          assert e == (vs[0], vs[j + 1]);
        } else {
          assert e in Pairs(vs[1..]);
          var i, j :| 0 <= i < j < |vs[1..]| && e == (vs[1..][i], vs[1..][j]);
          assert e == (vs[i + 1], vs[j + 1]);
        }
      }
      if exists i, j :: 0 <= i < j < |vs| && e == (vs[i], vs[j]) {
        var i, j :| 0 <= i < j < |vs| && e == (vs[i], vs[j]);
        if i == 0 {
          assert Row(vs[0], vs[1..])[j - 1] == e;
        } else {
          assert e == (vs[1..][i - 1], vs[1..][j - 1]);
        }
      }
    }
  }

  /** Pairs of a list without repeats has no repeats. */
  lemma {:induction false} PairsDistinct(vs: seq<Vertex>)
    requires Distinct(vs)
    ensures Distinct(Pairs(vs))
    decreases |vs|
  {
    if vs != [] {
      var row, tail := Row(vs[0], vs[1..]), Pairs(vs[1..]);
      PairsDistinct(vs[1..]);
      forall i, j | 0 <= i < j < |row + tail| ensures (row + tail)[i] != (row + tail)[j] {
        if j < |row| {
          assert vs[i + 1] != vs[j + 1];
        } else if i < |row| {
          var e := tail[j - |row|];
          assert e in tail;
          PairsMembership(vs[1..], e);
          var a, b :| 0 <= a < b < |vs[1..]| && e == (vs[1..][a], vs[1..][b]);
          assert vs[0] != vs[a + 1];
        }
      }
    }
  }

  /** The comprehension's filter: keep the pairs at distance exactly 1. */
  function Adjacent(ps: seq<Edge>): seq<Edge>
    decreases |ps|
  {
    if ps == [] then []
    else (if Manhattan(ps[0].0, ps[0].1) == 1 then [ps[0]] else []) + Adjacent(ps[1..])
  }

  /** The filter keeps exactly the pairs at distance 1, and no pair twice. */
  lemma {:induction false} AdjacentMembership(ps: seq<Edge>, e: Edge)
    ensures e in Adjacent(ps) <==> e in ps && Manhattan(e.0, e.1) == 1
    decreases |ps|
  {
    if ps != [] {
      AdjacentMembership(ps[1..], e);
      assert ps == [ps[0]] + ps[1..];
    }
  }

  lemma {:induction false} AdjacentDistinct(ps: seq<Edge>)
    requires Distinct(ps)
    ensures Distinct(Adjacent(ps))
    decreases |ps|
  {
    if ps != [] {
      AdjacentDistinct(ps[1..]);
      var tail := Adjacent(ps[1..]);
      if Manhattan(ps[0].0, ps[0].1) == 1 {
        forall j | 0 <= j < |tail| ensures ps[0] != tail[j] {
          assert tail[j] in tail;
          AdjacentMembership(ps[1..], tail[j]);
          var k :| 0 <= k < |ps[1..]| && ps[1..][k] == tail[j];
          assert ps[k + 1] == tail[j];
        }
        assert forall i, j :: 0 < i < j < |[ps[0]] + tail| ==> ([ps[0]] + tail)[i] == tail[i - 1] && ([ps[0]] + tail)[j] == tail[j - 1];
      }
    }
  }

  /** edges = [(v1, v2) for v1, v2 in combinations(vertices, 2) if distance == 1] */
  function Edges(): seq<Edge>
  {
    Adjacent(Pairs(Vertices()))
  }

  /** An edge of the cube, written with its lexicographically smaller end first. */
  predicate IsCubeEdge(e: Edge)
  {
    IsCubeVertex(e.0) && IsCubeVertex(e.1) && LexLess(e.0, e.1) && Manhattan(e.0, e.1) == 1
  }

  /** Strictly increasing in LexLess. */
  predicate LexSorted(vs: seq<Vertex>)
  {
    forall i, j :: 0 <= i < j < |vs| ==> LexLess(vs[i], vs[j])
  }

  /** The filtered combinations of a sorted list are its pairs at distance 1, in order, once each. */
  lemma AdjacentPairs(vs: seq<Vertex>)
    requires LexSorted(vs)
    ensures forall e :: e in Adjacent(Pairs(vs)) <==>
      e.0 in vs && e.1 in vs && LexLess(e.0, e.1) && Manhattan(e.0, e.1) == 1
    ensures Distinct(Adjacent(Pairs(vs)))
  {
    assert Distinct(vs) by {
      forall i, j | 0 <= i < j < |vs| ensures vs[i] != vs[j] {
        assert LexLess(vs[i], vs[j]);
      }
    }
    PairsDistinct(vs);
    AdjacentDistinct(Pairs(vs));
    forall e ensures e in Adjacent(Pairs(vs)) <==>
      e.0 in vs && e.1 in vs && LexLess(e.0, e.1) && Manhattan(e.0, e.1) == 1
    {
      AdjacentMembership(Pairs(vs), e);
      PairsMembership(vs, e);
      if e.0 in vs && e.1 in vs && LexLess(e.0, e.1) {
        var i :| 0 <= i < |vs| && vs[i] == e.0;
        var j :| 0 <= j < |vs| && vs[j] == e.1;
        if j <= i {
          assert false;
        }
        assert e == (vs[i], vs[j]);
      }
    }
  }

  /**
   * The edge list holds exactly the pairs of cube vertices at distance 1,
   * each once and with the earlier vertex first.
   */
  lemma EdgesAreTheCubeEdges()
    ensures forall e :: e in Edges() <==> IsCubeEdge(e)
    ensures Distinct(Edges())
  {
    VerticesAreTheCube();
    AdjacentPairs(Vertices());
  }

  /** The same edge read in either direction. */
  predicate Linked(u: Vertex, v: Vertex, es: seq<Edge>)
  {
    (u, v) in es || (v, u) in es
  }

  /** An edge list holding exactly the cube's edges, in any order. */
  ghost predicate CubeEdgeList(es: seq<Edge>)
  {
    forall u, v :: (u, v) in es <==> IsCubeEdge((u, v))
  }

  /**
   * One pass of the inner `for edge in edges` loop: the neighbour across the
   * first edge containing `current` that is not yet visited, if any.
   */
  function FirstNew(current: Vertex, visited: seq<Vertex>, es: seq<Edge>): (r: Option<Vertex>)
    ensures r.Some? ==> r.value !in visited && Linked(current, r.value, es)
    ensures r.None? ==> forall v :: Linked(current, v, es) ==> v in visited
    decreases |es|
  {
    if es == [] then None
    else
      var e := es[0];
      if current == e.0 || current == e.1 then
        var neighbor := if e.1 == current then e.0 else e.1;
        if neighbor !in visited then Some(neighbor)
        else FirstNew(current, visited, es[1..])
      else FirstNew(current, visited, es[1..])
  }

  /**
   * The `while len(unfolding) < 6` loop over edge list `es` from the given
   * state: pop the stack (an IndexError on an empty one), then push and
   * record the first new neighbour of the popped vertex, if there is one.
   */
  function Walk(es: seq<Edge>, unfolding: seq<Vertex>, stack: seq<Vertex>): Result<seq<Vertex>>
    decreases Faces - |unfolding|, |stack|
  {
    if |unfolding| >= Faces then Ok(unfolding)
    else if stack == [] then Err(IndexError)
    else
      var current := stack[|stack| - 1];
      var rest := stack[..|stack| - 1];
      match FirstNew(current, unfolding, es)
      case None => Walk(es, unfolding, rest)
      case Some(neighbor) => Walk(es, unfolding + [neighbor], rest + [neighbor])
  }

  /** generate_unfolding(start) */
  function Unfold(start: Vertex): Result<seq<Vertex>>
  {
    Walk(Edges(), [start], [start])
  }

  /** A walk so far: distinct vertices, each joined by an edge to the one before it. */
  ghost predicate IsPath(u: seq<Vertex>, es: seq<Edge>)
  {
    Distinct(u) && forall i, j :: 0 <= i < j < |u| && j == i + 1 ==> Linked(u[i], u[j], es)
  }

  /** The stack only ever holds the vertex added last, or nothing. */
  ghost predicate WalkState(es: seq<Edge>, u: seq<Vertex>, stack: seq<Vertex>)
  {
    u != [] && |u| <= Faces && IsPath(u, es) && (stack == [] || stack == [u[|u| - 1]])
  }

  /** Appending a new vertex linked to the last one extends a path. */
  lemma ExtendPath(u: seq<Vertex>, n: Vertex, es: seq<Edge>)
    requires u != [] && IsPath(u, es) && n !in u && Linked(u[|u| - 1], n, es)
    ensures IsPath(u + [n], es)
  {
    var u' := u + [n];
    forall i, j | 0 <= i < j < |u'| ensures u'[i] != u'[j] {
      if j < |u| {
        assert u[i] != u[j];
      } else {
        assert u[i] in u;
      }
    }
    forall i, j | 0 <= i < j < |u'| && j == i + 1 ensures Linked(u'[i], u'[j], es) {
      if j < |u| {
        assert Linked(u[i], u[j], es);
      }
    }
  }

  /** What a finished walk looks like: six distinct vertices, extending the walk so far. */
  lemma {:induction false} WalkShape(es: seq<Edge>, u: seq<Vertex>, stack: seq<Vertex>)
    requires WalkState(es, u, stack)
    ensures Walk(es, u, stack).Ok? ==>
      var r := Walk(es, u, stack).value;
      |r| == Faces && r[..|u|] == u && IsPath(r, es)
    decreases Faces - |u|, |stack|
  {
    if |u| < Faces && stack != [] {
      var current := stack[|stack| - 1];
      var rest := stack[..|stack| - 1];
      assert rest == [];
      match FirstNew(current, u, es)
      case None =>
        WalkShape(es, u, rest);
      case Some(n) =>
        var u' := u + [n];
        ExtendPath(u, n, es);
        WalkShape(es, u', rest + [n]);
        if Walk(es, u', rest + [n]).Ok? {
          var r := Walk(es, u', rest + [n]).value;
          assert r[..|u|] == r[..|u'|][..|u|];
        }
    }
  }

  /** The parity of x + y + z: every cube edge joins vertices of different parity. */
  predicate Odd(v: Vertex)
  {
    (v.x == 1) != ((v.y == 1) != (v.z == 1))
  }

  lemma EdgeFlipsParity(e: Edge)
    requires IsCubeEdge(e)
    ensures Odd(e.0) != Odd(e.1)
  {
  }

  /** Along a path of cube edges the parity alternates. */
  lemma {:induction false} PathParity(u: seq<Vertex>, es: seq<Edge>, i: nat)
    requires CubeEdgeList(es) && IsPath(u, es) && i < |u|
    ensures Odd(u[i]) == Odd(u[|u| - 1]) <==> (|u| - 1 - i) % 2 == 0
    decreases |u| - i
  {
    if i < |u| - 1 {
      PathParity(u, es, i + 1);
      assert Linked(u[i], u[i + 1], es);
      if (u[i], u[i + 1]) in es {
        EdgeFlipsParity((u[i], u[i + 1]));
      } else {
        EdgeFlipsParity((u[i + 1], u[i]));
      }
    }
  }

  /** The vertex across one coordinate. */
  function Flip(v: Vertex, axis: nat): Vertex
    requires axis < 3
  {
    if axis == 0 then v.(x := 1 - v.x)
    else if axis == 1 then v.(y := 1 - v.y)
    else v.(z := 1 - v.z)
  }

  /** Each of the three flips of a cube vertex is joined to it by a cube edge. */
  lemma FlipStaysOnCube(c: Vertex, axis: nat)
    requires IsCubeVertex(c) && axis < 3
    ensures IsCubeVertex(Flip(c, axis))
  {
  }

  lemma FlipDistance(c: Vertex, axis: nat)
    requires IsCubeVertex(c) && axis < 3
    ensures Manhattan(c, Flip(c, axis)) == 1
  {
  }

  lemma FlipIsNeighbour(c: Vertex, axis: nat)
    requires IsCubeVertex(c) && axis < 3
    ensures IsCubeVertex(Flip(c, axis)) && Manhattan(c, Flip(c, axis)) == 1
  {
    FlipStaysOnCube(c, axis);
    FlipDistance(c, axis);
  }

  /** Two cube vertices at distance 1 form a cube edge, read one way or the other. */
  lemma NeighbourEdge(c: Vertex, f: Vertex)
    requires IsCubeVertex(c) && IsCubeVertex(f) && Manhattan(c, f) == 1
    ensures IsCubeEdge((c, f)) || IsCubeEdge((f, c))
  {
    NeighbourOrder(c, f);
    if LexLess(c, f) {
      assert IsCubeEdge((c, f));
    } else {
      assert IsCubeEdge((f, c));
    }
  }

  /** Distinct vertices are ordered one way or the other; distance is symmetric. */
  lemma NeighbourOrder(c: Vertex, f: Vertex)
    requires Manhattan(c, f) == 1
    ensures LexLess(c, f) || LexLess(f, c)
    ensures Manhattan(f, c) == 1
  {
  }

  /** Any two cube vertices at distance 1 are joined by an edge of the list. */
  lemma NeighboursLinked(c: Vertex, f: Vertex, es: seq<Edge>)
    requires CubeEdgeList(es) && IsCubeVertex(c) && IsCubeVertex(f) && Manhattan(c, f) == 1
    ensures Linked(c, f, es)
  {
    NeighbourEdge(c, f);
    if IsCubeEdge((c, f)) {
      EdgeListed((c, f), es);
    } else {
      EdgeListed((f, c), es);
    }
  }

  lemma EdgeListed(e: Edge, es: seq<Edge>)
    requires CubeEdgeList(es) && IsCubeEdge(e)
    ensures e in es
  {
  }

  lemma FlipLinked(c: Vertex, axis: nat, es: seq<Edge>)
    requires CubeEdgeList(es) && IsCubeVertex(c) && axis < 3
    ensures Linked(c, Flip(c, axis), es) && IsCubeVertex(Flip(c, axis))
  {
    FlipIsNeighbour(c, axis);
    NeighboursLinked(c, Flip(c, axis), es);
  }

  lemma FlipParity(c: Vertex, axis: nat)
    requires IsCubeVertex(c) && axis < 3
    ensures Odd(Flip(c, axis)) != Odd(c)
  {
  }

  lemma FlipsDistinct(c: Vertex)
    ensures Flip(c, 0) != Flip(c, 1) && Flip(c, 0) != Flip(c, 2) && Flip(c, 1) != Flip(c, 2)
  {
  }

  /**
   * On a path of at most five cube vertices only the second and the fourth
   * vertex from the end have the other parity than the last one.
   */
  lemma OtherParityPositions(u: seq<Vertex>, es: seq<Edge>)
    requires CubeEdgeList(es) && IsPath(u, es) && u != [] && |u| < Faces
    ensures forall i :: 0 <= i < |u| && Odd(u[i]) != Odd(u[|u| - 1]) ==> i == |u| - 2 || i == |u| - 4
  {
    forall i | 0 <= i < |u| && Odd(u[i]) != Odd(u[|u| - 1]) ensures i == |u| - 2 || i == |u| - 4 {
      OtherParityAt(u, es, i);
    }
  }

  lemma OtherParityAt(u: seq<Vertex>, es: seq<Edge>, i: nat)
    requires CubeEdgeList(es) && IsPath(u, es) && i < |u| < Faces
    requires Odd(u[i]) != Odd(u[|u| - 1])
    ensures i == |u| - 2 || i == |u| - 4
  {
    PathParity(u, es, i);
    OddGap(|u| - 1 - i);
  }

  lemma OddGap(d: int)
    requires 0 <= d < Faces - 1 && d % 2 != 0
    ensures d == 1 || d == 3
  {
  }

  /** So the neighbours of the last vertex can only sit at those two positions. */
  lemma FlipPositions(u: seq<Vertex>)
    requires u != [] && IsCubeVertex(u[|u| - 1])
    requires forall i :: 0 <= i < |u| && Odd(u[i]) != Odd(u[|u| - 1]) ==> i == |u| - 2 || i == |u| - 4
    ensures forall i :: 0 <= i < |u| && u[i] in Flips(u[|u| - 1]) ==> i == |u| - 2 || i == |u| - 4
  {
    var c := u[|u| - 1];
    forall i | 0 <= i < |u| && u[i] in Flips(c) ensures i == |u| - 2 || i == |u| - 4 {
      var axis :| 0 <= axis < 3 && u[i] == Flip(c, axis);
      FlipParity(c, axis);
    }
  }

  /** The three neighbours of a cube vertex. */
  function Flips(c: Vertex): seq<Vertex>
  {
    [Flip(c, 0), Flip(c, 1), Flip(c, 2)]
  }

  /** Three distinct values cannot all sit at two positions. */
  lemma ThreeDoNotFit(u: seq<Vertex>, fs: seq<Vertex>) returns (k: nat)
    requires |fs| == 3 && fs[0] != fs[1] && fs[0] != fs[2] && fs[1] != fs[2]
    requires forall i :: 0 <= i < |u| && u[i] in fs ==> i == |u| - 2 || i == |u| - 4
    ensures k < 3 && fs[k] !in u
  {
    if fs[0] !in u {
      return 0;
    }
    if fs[1] !in u {
      return 1;
    }
    var i0 :| 0 <= i0 < |u| && u[i0] == fs[0];
    var i1 :| 0 <= i1 < |u| && u[i1] == fs[1];
    forall i | 0 <= i < |u| ensures u[i] != fs[2] {
      assert u[i0] in fs && u[i1] in fs;
    }
    return 2;
  }

  /**
   * From a cube vertex with fewer than six faces collected the inner loop
   * always finds a new neighbour.
   */
  lemma NeverStuck(u: seq<Vertex>, es: seq<Edge>)
    requires CubeEdgeList(es)
    requires u != [] && |u| < Faces && IsPath(u, es) && IsCubeVertex(u[|u| - 1])
    ensures FirstNew(u[|u| - 1], u, es).Some?
  {
    var c := u[|u| - 1];
    OtherParityPositions(u, es);
    FlipPositions(u);
    FlipsDistinct(c);
    var axis := ThreeDoNotFit(u, Flips(c));
    assert Flips(c)[axis] == Flip(c, axis);
    FlipLinked(c, axis, es);
  }

  /** One round of the outer loop from a cube vertex: a new neighbour is pushed. */
  lemma WalkStep(es: seq<Edge>, u: seq<Vertex>) returns (n: Vertex)
    requires CubeEdgeList(es)
    requires u != [] && |u| < Faces && IsPath(u, es) && IsCubeVertex(u[|u| - 1])
    ensures IsCubeVertex(n) && IsPath(u + [n], es)
    ensures Walk(es, u, [u[|u| - 1]]) == Walk(es, u + [n], [n])
  {
    var c := u[|u| - 1];
    NeverStuck(u, es);
    n := FirstNew(c, u, es).value;
    LinkedIsCubeStep(c, n, es);
    ExtendPath(u, n, es);
    assert [c][..0] == [];
  }

  /** From a cube vertex the walk always collects its six faces. */
  lemma {:induction false} WalkFromCubeVertex(es: seq<Edge>, u: seq<Vertex>)
    requires CubeEdgeList(es)
    requires u != [] && |u| <= Faces && IsPath(u, es) && IsCubeVertex(u[|u| - 1])
    ensures Walk(es, u, [u[|u| - 1]]).Ok?
    decreases Faces - |u|
  {
    if |u| < Faces {
      var n := WalkStep(es, u);
      WalkFromCubeVertex(es, u + [n]);
    }
  }

  /** Outside the cube no edge contains the start, so the second pop fails. */
  lemma OffCube(es: seq<Edge>, start: Vertex)
    requires CubeEdgeList(es) && !IsCubeVertex(start)
    ensures Walk(es, [start], [start]) == Err(IndexError)
  {
    assert FirstNew(start, [start], es).None?;
    assert [start][..0] == [];
    assert Walk(es, [start], []) == Err(IndexError);
  }

  /**
   * Over any list of the cube's edges the walk succeeds exactly from the
   * cube's vertices; then it returns six distinct vertices, starting with
   * `start`, each sharing an edge with the one before it.
   */
  lemma WalkCorrect(es: seq<Edge>, start: Vertex)
    requires CubeEdgeList(es)
    ensures Walk(es, [start], [start]).Ok? <==> IsCubeVertex(start)
    ensures Walk(es, [start], [start]).Err? ==> Walk(es, [start], [start]).error == IndexError
    ensures Walk(es, [start], [start]).Ok? ==>
      var r := Walk(es, [start], [start]).value;
      |r| == Faces && r[0] == start && Distinct(r) &&
      (forall i :: 0 <= i < |r| ==> IsCubeVertex(r[i])) &&
      (forall i, j :: 0 <= i < j < |r| && j == i + 1 ==> Manhattan(r[i], r[j]) == 1)
  {
    assert WalkState(es, [start], [start]);
    WalkShape(es, [start], [start]);
    if IsCubeVertex(start) {
      WalkFromCubeVertex(es, [start]);
      PathOnCube(es, Walk(es, [start], [start]).value);
    } else {
      OffCube(es, start);
    }
  }

  /** Every step of a path over the cube's edges joins two cube vertices at distance one. */
  lemma PathOnCube(es: seq<Edge>, r: seq<Vertex>)
    requires CubeEdgeList(es) && IsPath(r, es) && r != [] && IsCubeVertex(r[0])
    ensures forall i :: 0 <= i < |r| ==> IsCubeVertex(r[i])
    ensures forall i, j :: 0 <= i < j < |r| && j == i + 1 ==> Manhattan(r[i], r[j]) == 1
  {
    forall i, j | 0 <= i < j < |r| && j == i + 1 ensures Manhattan(r[i], r[j]) == 1 && IsCubeVertex(r[j]) {
      LinkedIsCubeStep(r[i], r[j], es);
    }
    forall i | 0 < i < |r| ensures IsCubeVertex(r[i]) {
      LinkedIsCubeStep(r[i - 1], r[i], es);
    }
  }

  lemma LinkedIsCubeStep(a: Vertex, b: Vertex, es: seq<Edge>)
    requires CubeEdgeList(es) && Linked(a, b, es)
    ensures Manhattan(a, b) == 1 && IsCubeVertex(b)
  {
    if (a, b) in es {
      assert IsCubeEdge((a, b));
    } else {
      assert IsCubeEdge((b, a));
      NeighbourOrder(b, a);
    }
  }

  /** generate_unfolding over the module's edge list. */
  lemma UnfoldCorrect(start: Vertex)
    ensures Unfold(start).Ok? <==> IsCubeVertex(start)
    ensures Unfold(start).Err? ==> Unfold(start).error == IndexError
    ensures Unfold(start).Ok? ==>
      var r := Unfold(start).value;
      |r| == Faces && r[0] == start && Distinct(r) &&
      (forall i :: 0 <= i < |r| ==> IsCubeVertex(r[i])) &&
      (forall i, j :: 0 <= i < j < |r| && j == i + 1 ==> Manhattan(r[i], r[j]) == 1)
  {
    EdgesAreTheCubeEdges();
    WalkCorrect(Edges(), start);
  }

  /**
   * The Python procedure itself: a `while` loop that pops the stack and scans
   * the edge list for the first new neighbour. The module-level edge list is
   * passed in as `edges`.
   */
  method GenerateUnfolding(edges: seq<Edge>, start: Vertex) returns (r: Result<seq<Vertex>>)
    requires edges == Edges()
    ensures r == Unfold(start)
    ensures r.Ok? <==> IsCubeVertex(start)
    ensures r.Ok? ==> |r.value| == Faces && r.value[0] == start && Distinct(r.value)
  {
    r := Generate(edges, start);
    UnfoldCorrect(start);
  }

  /** The loop of `GenerateUnfolding` over any edge list. */
  method Generate(edges: seq<Edge>, start: Vertex) returns (r: Result<seq<Vertex>>)
    ensures r == Walk(edges, [start], [start])
  {
    var unfolding := [start];
    var stack := [start];
    var visited := {start};
    while |unfolding| < Faces
      invariant visited == set v | v in unfolding
      invariant Walk(edges, unfolding, stack) == Walk(edges, [start], [start])
      decreases Faces - |unfolding|, |stack|
    {
      if stack == [] {
        return Err(IndexError);
      }
      var current := stack[|stack| - 1];
      stack := stack[..|stack| - 1];
      var found := ScanEdges(edges, current, unfolding, visited);
      if found.Some? {
        unfolding := unfolding + [found.value];
        stack := stack + [found.value];
        visited := visited + {found.value};
      }
    }
    r := Ok(unfolding);
  }

  /**
   * The inner `for edge in edges` loop: the first edge at `current` whose
   * other end is not yet visited; the Python code appends it and breaks.
   */
  method ScanEdges(edges: seq<Edge>, current: Vertex, unfolding: seq<Vertex>, visited: set<Vertex>)
    returns (found: Option<Vertex>)
    requires visited == set v | v in unfolding
    ensures found == FirstNew(current, unfolding, edges)
  {
    var i := 0;
    while i < |edges|
      invariant 0 <= i <= |edges|
      invariant FirstNew(current, unfolding, edges) == FirstNew(current, unfolding, edges[i..])
    {
      var edge := edges[i];
      assert edges[i..] == [edge] + edges[i + 1..];
      if current == edge.0 || current == edge.1 {
        var neighbor := if edge.1 == current then edge.0 else edge.1;
        if neighbor !in visited {
          return Some(neighbor);
        }
      }
      i := i + 1;
    }
    return None;
  }
}
