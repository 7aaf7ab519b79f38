/**
 * The animated star systems of lab1/ex.9.py: a star creates its planets
 * on orbits 30 apart, every even orbit turning clockwise, with at least
 * three planets by the second orbit; the planets of stars 0 and 2 on even
 * orbits carry a satellite a quarter of the orbit out.
 *
 * Positions on a circle come from `math.cos`/`math.sin` of the angle in
 * degrees; here that is the `Place` function, a parameter. The canvas
 * items, `draw_star`, `create_orbit` and the `after` timer are not
 * modelled.
 */
module Orbits {
  const OrbitSpacing: int := 30
  const PlanetStepAngle: real := 1.0
  const SatelliteStepAngle: int := 5
  const SatelliteRadius: int := 3

  /** The point at a given angle, in degrees, on the circle of a given centre and radius. */
  type Place = (real, real, real, real) -> (real, real)

  /** What a Planet is created with. */
  datatype PlanetRec = PlanetRec(starX: real, starY: real, orbitRadius: int, angle: real, clockwise: bool, hasSatellite: bool)

  /** The planet of `create_planets` for loop index i of a star with n planets, the one with index starIndex. */
  function NewPlanet(x: real, y: real, n: int, starIndex: int, i: nat): PlanetRec
    requires i < n
  {
    var even := (i + 1) % 2 == 0;
    PlanetRec(x, y, OrbitSpacing * (i + 1), (i as real) * (360.0 / (n as real)), even, (starIndex == 0 || starIndex == 2) && even)
  }

  /** What one pass of the loop appends when the star already has `len` planets: up to three on an even orbit, otherwise one. */
  function Block(x: real, y: real, n: int, starIndex: int, i: nat, len: nat): (r: seq<PlanetRec>)
    requires i < n
    ensures (i + 1) % 2 == 0 && len < 3 ==> |r| == 3 - len
    ensures !((i + 1) % 2 == 0 && len < 3) ==> |r| == 1
    ensures forall k :: 0 <= k < |r| ==> r[k] == NewPlanet(x, y, n, starIndex, i)
  {
    var p := NewPlanet(x, y, n, starIndex, i);
    if (i + 1) % 2 == 0 && len < 3 then seq(3 - len, _ => p) else [p]
  }

  /** The planets the first k passes of `create_planets` append to a list that held `before` planets. */
  function Created(x: real, y: real, n: int, starIndex: int, before: nat, k: nat): seq<PlanetRec>
    requires k == 0 || k <= n
  {
    if k == 0 then []
    else
      var done := Created(x, y, n, starIndex, before, k - 1);
      done + Block(x, y, n, starIndex, k - 1, before + |done|)
  }

  /** The orbit index of the j-th planet of a fresh star: planets 1 and 2 share the second orbit. */
  function OrbitOf(j: nat): nat
  {
    if j == 0 then 0 else if j <= 2 then 1 else j - 1
  }

  /**
   * On a star with no planets yet, the first k passes create k planets,
   * plus one from the second pass on: the second orbit gets two. The j-th
   * planet is the one for orbit OrbitOf(j).
   */
  lemma {:induction false} CreatedFromEmpty(x: real, y: real, n: int, starIndex: int, k: nat)
    requires k <= n
    ensures |Created(x, y, n, starIndex, 0, k)| == if k >= 2 then k + 1 else k
    ensures forall j :: 0 <= j < |Created(x, y, n, starIndex, 0, k)| ==>
      Created(x, y, n, starIndex, 0, k)[j] == NewPlanet(x, y, n, starIndex, OrbitOf(j))
  {
    if k > 0 {
      CreatedFromEmpty(x, y, n, starIndex, k - 1);
      var done := Created(x, y, n, starIndex, 0, k - 1);
      var block := Block(x, y, n, starIndex, k - 1, |done|);
      assert Created(x, y, n, starIndex, 0, k) == done + block;
      forall j | |done| <= j < |done| + |block|
        ensures OrbitOf(j) == k - 1
      {
      }
    }
  }

  /**
   * `create_planets` on a fresh star with num_planets planets: one planet
   * for one, num_planets + 1 from two on. Planet j sits on orbit
   * 30 * (OrbitOf(j) + 1) at angle OrbitOf(j) * 360 / num_planets, turns
   * clockwise exactly on even orbits, and has a satellite exactly on even
   * orbits of stars 0 and 2.
   */
  lemma StarPlanets(x: real, y: real, n: int, starIndex: int)
    requires n >= 0
    ensures |Created(x, y, n, starIndex, 0, n)| == if n >= 2 then n + 1 else n
    ensures forall j :: 0 <= j < |Created(x, y, n, starIndex, 0, n)| ==>
      var p := Created(x, y, n, starIndex, 0, n)[j];
      && p.starX == x && p.starY == y
      && p.orbitRadius == OrbitSpacing * (OrbitOf(j) + 1)
      && p.angle == (OrbitOf(j) as real) * (360.0 / (n as real))
      && (p.clockwise <==> (OrbitOf(j) + 1) % 2 == 0)
      && (p.hasSatellite <==> (starIndex == 0 || starIndex == 2) && (OrbitOf(j) + 1) % 2 == 0)
  {
    CreatedFromEmpty(x, y, n, starIndex, n);
  }

  /** Only clockwise planets carry satellites, and planets 1 and 2 of a star with two or more planets share the orbit of radius 60. */
  lemma SatellitesTurnClockwise(x: real, y: real, n: int, starIndex: int)
    requires n >= 2
    ensures |Created(x, y, n, starIndex, 0, n)| == n + 1
    ensures forall j :: 0 <= j < |Created(x, y, n, starIndex, 0, n)| ==>
      Created(x, y, n, starIndex, 0, n)[j].hasSatellite ==> Created(x, y, n, starIndex, 0, n)[j].clockwise
    ensures Created(x, y, n, starIndex, 0, n)[1] == Created(x, y, n, starIndex, 0, n)[2]
    ensures Created(x, y, n, starIndex, 0, n)[1].orbitRadius == 2 * OrbitSpacing
  {
    CreatedFromEmpty(x, y, n, starIndex, n);
  }

  /** `Satellite`: it circles its planet, whose position it is told at every step. */
  class Satellite {
    var planetX: real
    var planetY: real
    const radius: int
    const orbitRadius: real
    var angle: int

    constructor (planetX: real, planetY: real, radius: int, orbitRadius: real)
      ensures this.planetX == planetX && this.planetY == planetY
      ensures this.radius == radius && this.orbitRadius == orbitRadius && angle == 0
    {
      this.planetX := planetX;
      this.planetY := planetY;
      this.radius := radius;
      this.orbitRadius := orbitRadius;
      angle := 0;
    }

    /** `move(planet_x, planet_y)`: it re-centres on the planet and advances 5 degrees. */
    method Move(planetX: real, planetY: real)
      modifies this
      ensures this.planetX == planetX && this.planetY == planetY
      ensures angle == old(angle) + SatelliteStepAngle
    {
      this.planetX := planetX;
      this.planetY := planetY;
      angle := angle + SatelliteStepAngle;
    }
  }

  /** `Planet`: it circles its star, one degree per step, and carries its satellite along. */
  class Planet {
    const starX: real
    const starY: real
    const orbitRadius: int
    var angle: real
    const clockwise: bool
    const hasSatellite: bool
    const satellite: Satellite?

    function Record(): PlanetRec
      reads this
    {
      PlanetRec(starX, starY, orbitRadius, angle, clockwise, hasSatellite)
    }

    /** The satellite exists exactly when the planet was made with one, and circles at a quarter of the planet's orbit. */
    predicate Valid()
    {
      (satellite != null <==> hasSatellite)
      && (satellite != null ==> satellite.orbitRadius == orbitRadius as real / 4.0 && satellite.radius == SatelliteRadius)
    }

    /** `__init__` with `create_planet`: a satellite, when there is one, starts at the planet's position. */
    constructor (rec: PlanetRec, at: Place)
      ensures Record() == rec && Valid()
      ensures satellite != null ==> (fresh(satellite) && satellite.angle == 0
        && (satellite.planetX, satellite.planetY) == at(rec.starX, rec.starY, rec.orbitRadius as real, rec.angle))
    {
      starX := rec.starX;
      starY := rec.starY;
      orbitRadius := rec.orbitRadius;
      angle := rec.angle;
      clockwise := rec.clockwise;
      hasSatellite := rec.hasSatellite;
      var (px, py) := at(rec.starX, rec.starY, rec.orbitRadius as real, rec.angle);
      if rec.hasSatellite {
        satellite := new Satellite(px, py, SatelliteRadius, rec.orbitRadius as real / 4.0);
      } else {
        satellite := null;
      }
    }

    /**
     * `move`: one degree back when clockwise, one forward otherwise; the
     * satellite advances and re-centres on the planet's new position.
     */
    method Move(at: Place)
      requires Valid()
      modifies this, satellite
      ensures Valid()
      ensures angle == if clockwise then old(angle) - PlanetStepAngle else old(angle) + PlanetStepAngle
      ensures satellite != null ==> (satellite.angle == old(satellite.angle) + SatelliteStepAngle
        && (satellite.planetX, satellite.planetY) == at(starX, starY, orbitRadius as real, angle))
    {
      if clockwise {
        angle := angle - PlanetStepAngle;
      } else {
        angle := angle + PlanetStepAngle;
      }
      var (px, py) := at(starX, starY, orbitRadius as real, angle);
      if satellite != null {
        satellite.Move(px, py);
      }
    }
  }

  function Records(ps: seq<Planet>): (r: seq<PlanetRec>)
    reads ps
    ensures |r| == |ps| && forall k :: 0 <= k < |ps| ==> r[k] == ps[k].Record()
  {
    RecordsTo(ps, |ps|)
  }

  /** The records of the first n planets. */
  function RecordsTo(ps: seq<Planet>, n: nat): (r: seq<PlanetRec>)
    requires n <= |ps|
    reads ps
    ensures |r| == n && forall k :: 0 <= k < n ==> r[k] == ps[k].Record()
  {
    if n == 0 then [] else RecordsTo(ps, n - 1) + [ps[n - 1].Record()]
  }

  /** `Star`: its position, planet count, index among the stars, and the planets it created. */
  class Star {
    const x: real
    const y: real
    const numPlanets: int
    const starIndex: int
    var planets: seq<Planet>

    /** `__init__`: an empty planet list, then `create_planets`. */
    constructor (x: real, y: real, numPlanets: int, starIndex: int, at: Place)
      ensures this.x == x && this.y == y && this.numPlanets == numPlanets && this.starIndex == starIndex
      ensures Records(planets) == Created(x, y, numPlanets, starIndex, 0, if numPlanets > 0 then numPlanets else 0)
      ensures forall k :: 0 <= k < |planets| ==> fresh(planets[k]) && planets[k].Valid()
      ensures |planets| == if numPlanets >= 2 then numPlanets + 1 else if numPlanets == 1 then 1 else 0
    {
      this.x := x;
      this.y := y;
      this.numPlanets := numPlanets;
      this.starIndex := starIndex;
      planets := [];
      new;
      CreatePlanets(at);
      if numPlanets > 0 {
        StarPlanets(x, y, numPlanets, starIndex);
      }
      assert |Records(planets)| == |planets|;
    }

    /**
     * `create_planets`: for each orbit index i below num_planets, the
     * planets of Block are appended, so that the list ends as Created
     * says; nothing already in the list changes.
     */
    method CreatePlanets(at: Place)
      modifies this
      ensures |planets| >= |old(planets)| && planets[..|old(planets)|] == old(planets)
      ensures Records(planets[|old(planets)|..])
        == Created(x, y, numPlanets, starIndex, |old(planets)|, if numPlanets > 0 then numPlanets else 0)
      ensures forall k :: |old(planets)| <= k < |planets| ==> fresh(planets[k]) && planets[k].Valid()
    {
      ghost var start := planets;
      var count := if numPlanets > 0 then numPlanets else 0;
      for i := 0 to count
        invariant Grown(start, i)
        invariant forall k :: |start| <= k < |planets| ==> fresh(planets[k])
      {
        Pass(i, at, start);
      }
    }

    /** The list is `start` followed by the planets Created gives for the first i orbit indices. */
    ghost predicate Grown(start: seq<Planet>, i: nat)
      reads this, planets
    {
      |start| <= |planets| && planets[..|start|] == start && (i == 0 || i <= numPlanets)
      && Records(planets[|start|..]) == Created(x, y, numPlanets, starIndex, |start|, i)
      && forall k :: |start| <= k < |planets| ==> planets[k].Valid()
    }

    /** The loop body of `create_planets` for orbit index i, in terms of Created. */
    method Pass(i: nat, at: Place, ghost start: seq<Planet>)
      requires i < numPlanets && Grown(start, i)
      modifies this
      ensures Grown(start, i + 1)
      ensures |planets| >= |old(planets)| && forall k :: 0 <= k < |old(planets)| ==> planets[k] == old(planets)[k]
      ensures forall k :: |old(planets)| <= k < |planets| ==> fresh(planets[k])
    {
      ghost var before := |start|;
      ghost var current := planets;
      ghost var done := Records(current[before..]);
      AddOrbit(i, at);
      assert Records(current[before..]) == done;
      AppendBlock(planets, current, before, Block(x, y, numPlanets, starIndex, i, |current|));
      assert Created(x, y, numPlanets, starIndex, before, i + 1) == done + Block(x, y, numPlanets, starIndex, i, before + |done|);
    }

    /** One pass of the loop of `create_planets`: the planets of Block, each a new Planet. */
    method AddOrbit(i: nat, at: Place)
      requires i < numPlanets
      modifies this
      ensures |planets| >= |old(planets)| && planets[..|old(planets)|] == old(planets)
      ensures |planets| - |old(planets)| == |Block(x, y, numPlanets, starIndex, i, |old(planets)|)|
      ensures forall k :: |old(planets)| <= k < |planets| ==>
        fresh(planets[k]) && planets[k].Valid() && planets[k].Record() == NewPlanet(x, y, numPlanets, starIndex, i)
    {
      var rec := NewPlanet(x, y, numPlanets, starIndex, i);
      if (i + 1) % 2 == 0 && |planets| < 3 {
        var m := 3 - |planets|;
        for c := 0 to m
          invariant |planets| == |old(planets)| + c && planets[..|old(planets)|] == old(planets)
          invariant forall k :: |old(planets)| <= k < |planets| ==> fresh(planets[k]) && planets[k].Valid() && planets[k].Record() == rec
        {
          var p := new Planet(rec, at);
          planets := planets + [p];
        }
      } else {
        var p := new Planet(rec, at);
        planets := planets + [p];
      }
    }
  }

  /** The planet list after one pass: the old planets, then the new ones, read as records. */
  lemma AppendBlock(planets: seq<Planet>, start: seq<Planet>, before: nat, block: seq<PlanetRec>)
    requires before <= |start| <= |planets| && planets[..|start|] == start
    requires |planets| - |start| == |block|
    requires forall k :: |start| <= k < |planets| ==> planets[k].Record() == block[k - |start|]
    ensures Records(planets[before..]) == Records(start[before..]) + block
  {
    var r := Records(planets[before..]);
    assert |r| == |start| - before + |block|;
    forall k | 0 <= k < |r|
      ensures r[k] == (Records(start[before..]) + block)[k]
    {
      if k < |start| - before {
        assert planets[before..][k] == start[before..][k];
      }
    }
  }
}
