/**
 * The bodies of the solar-system model, lll/solar_objects.py: a star, a
 * planet and a satellite ("Satelite", as the program spells it) read their
 * fields from a line of the input file, and a planet or satellite turns
 * about a centre body.
 *
 * The classes Star and Planet derive from CosmicBody and Satelite from
 * Planet; one class with a `kind` stands for the three. The angle and the
 * orbital speed a rotation needs (a square root, a cosine and a sine) are
 * given by an `Orbit` function the caller supplies.
 */
module SolarObjects {
  import opened Wrappers
  import opened SolarText

  datatype Kind = StarKind | PlanetKind | SateliteKind

  /** `isinstance(obj, Planet)`: planets and satellites. */
  predicate IsPlanet(k: Kind)
  {
    k != StarKind
  }

  /** The fields `parse_cosmic_body_parameters` assigns. */
  datatype Fields = Fields(R: int, color: string, m: real, x: real, y: real, ID: int)

  /** The parsers leave a line alone when it is blank after `strip` or starts with '#'. */
  predicate Skipped(line: string)
  {
    var t := Strip(line);
    t == [] || t[0] == '#'
  }

  /** A line the parsers do not pass over has tokens, the same before and after `strip`. */
  lemma UnskippedTokens(line: string)
    requires !Skipped(line)
    ensures Split(Strip(line)) == Split(line) && Split(line) != []
  {
    StripHead(line);
    SplitStrip(line);
  }

  /**
   * How many of the six assignments of `parse_cosmic_body_parameters` go
   * through on the tokens `parts`: R = int(parts[1]), color = parts[2],
   * m, x, y = float(parts[3..6]) and ID = int(parts[-1]), in this order.
   */
  function Reached(parts: seq<string>): (n: nat)
    requires parts != []
    ensures n <= 6
    ensures n > 0 ==> |parts| > 1 && ParseInt(parts[1]).Some?
    ensures n > 1 ==> |parts| > 2
    ensures n > 2 ==> |parts| > 3 && ParseFloat(parts[3]).Some?
    ensures n > 3 ==> |parts| > 4 && ParseFloat(parts[4]).Some?
    ensures n > 4 ==> |parts| > 5 && ParseFloat(parts[5]).Some?
    ensures n > 5 ==> ParseInt(parts[|parts| - 1]).Some?
  {
    if |parts| < 2 || ParseInt(parts[1]).None? then 0
    else if |parts| < 3 then 1
    else if |parts| < 4 || ParseFloat(parts[3]).None? then 2
    else if |parts| < 5 || ParseFloat(parts[4]).None? then 3
    else if |parts| < 6 || ParseFloat(parts[5]).None? then 4
    else if ParseInt(parts[|parts| - 1]).None? then 5
    else 6
  }

  /**
   * The fields after the assignments that went through: the parsed token
   * for each of the first Reached(parts) fields, the old value for the rest.
   */
  function Assigned(parts: seq<string>, f: Fields): Fields
    requires parts != []
  {
    var n := Reached(parts);
    Fields(
      if n > 0 then ParseInt(parts[1]).value else f.R,
      if n > 1 then parts[2] else f.color,
      if n > 2 then ParseFloat(parts[3]).value else f.m,
      if n > 3 then ParseFloat(parts[4]).value else f.x,
      if n > 4 then ParseFloat(parts[5]).value else f.y,
      if n > 5 then ParseInt(parts[|parts| - 1]).value else f.ID)
  }

  /** The exception the first failing assignment raises: a missing token is IndexError, a malformed number ValueError. */
  function FieldError(parts: seq<string>): Error
    requires parts != []
  {
    var n := Reached(parts);
    if n < 5 && |parts| <= n + 1 then IndexError else ValueError
  }

  /**
   * The whole record a line's tokens describe, or the exception parsing
   * them raises: a record exactly when there are at least six tokens, the
   * second and the last are integers and the fourth to sixth are numbers.
   */
  function ParseBody(parts: seq<string>): (r: Result<Fields>)
    requires parts != []
    ensures r.Ok? <==> (|parts| >= 6 && ParseInt(parts[1]).Some? && ParseInt(parts[|parts| - 1]).Some?
      && ParseFloat(parts[3]).Some? && ParseFloat(parts[4]).Some? && ParseFloat(parts[5]).Some?)
    ensures r.Ok? ==> r.value == Fields(ParseInt(parts[1]).value, parts[2], ParseFloat(parts[3]).value,
      ParseFloat(parts[4]).value, ParseFloat(parts[5]).value, ParseInt(parts[|parts| - 1]).value)
    ensures r.Err? ==> (r.error == IndexError <==> (|parts| < 6 && (|parts| < 2 || ParseInt(parts[1]).Some?)
      && (|parts| < 4 || ParseFloat(parts[3]).Some?) && (|parts| < 5 || ParseFloat(parts[4]).Some?)))
  {
    if Reached(parts) == 6 then Ok(Assigned(parts, Fields(0, [], 0.0, 0.0, 0.0, 0))) else Err(FieldError(parts))
  }

  /** Once every assignment goes through, the old field values no longer matter. */
  lemma AssignedComplete(parts: seq<string>, f: Fields)
    requires parts != [] && ParseBody(parts).Ok?
    ensures Assigned(parts, f) == ParseBody(parts).value
  {
  }

  /** What a rotation needs about the orbit: the orbital speed sqrt(G m / r) and the cosine and sine of the angle turned in one step. */
  datatype Turn = Turn(speed: real, cos: real, sin: real)

  /** The speed and angle of a rotation, from the offset to the centre and the centre's mass (the time step is part of it). */
  type Orbit = (real, real, real) -> Turn

  /** What a rotation moves: the position and V_tg, which a star never has. */
  datatype Motion = Motion(x: real, y: real, speed: Option<real>)

  /**
   * One step of `rotate_planet_around` (`setSpeed`) or
   * `rotate_satelite_around` about the centre (cx, cy) of mass cm: a body
   * on the centre stays as it is; any other turns by the orbit's angle
   * about the centre, and a planet keeps the orbital speed as its V_tg.
   */
  function Rotated(p: Motion, cx: real, cy: real, cm: real, orbit: Orbit, setSpeed: bool): Motion
  {
    if p.x == cx && p.y == cy then p
    else
      var dx, dy := p.x - cx, p.y - cy;
      var t := orbit(dx, dy, cm);
      Motion(dx * t.cos - dy * t.sin + cx, dx * t.sin + dy * t.cos + cy, if setSpeed then Some(t.speed) else p.speed)
  }

  function Distance2(p: Motion, cx: real, cy: real): real
  {
    (p.x - cx) * (p.x - cx) + (p.y - cy) * (p.y - cy)
  }

  /**
   * A rotation keeps the distance to the centre when the orbit's cosine
   * and sine are those of an angle, and a body on its centre (distance 0)
   * stays where it is.
   */
  lemma RotationKeepsDistance(p: Motion, cx: real, cy: real, cm: real, orbit: Orbit, setSpeed: bool)
    requires var t := orbit(p.x - cx, p.y - cy, cm); t.cos * t.cos + t.sin * t.sin == 1.0
    ensures Distance2(Rotated(p, cx, cy, cm, orbit, setSpeed), cx, cy) == Distance2(p, cx, cy)
    ensures p.x == cx && p.y == cy ==> Rotated(p, cx, cy, cm, orbit, setSpeed) == p
  {
    var dx, dy := p.x - cx, p.y - cy;
    var t := orbit(dx, dy, cm);
    var c, s := t.cos, t.sin;
    calc {
      (dx * c - dy * s) * (dx * c - dy * s) + (dx * s + dy * c) * (dx * s + dy * c);
      dx * dx * (c * c + s * s) + dy * dy * (c * c + s * s);
      dx * dx + dy * dy;
    }
  }

  /**
   * A star, planet or satellite. Python creates the object without any of
   * these attributes and the parsers add them; here they start at zero
   * values, except V_tg, which is absent until a planet's parser or
   * rotation sets it.
   */
  class CosmicBody {
    const kind: Kind
    var R: int
    var color: string
    var m: real
    var x: real
    var y: real
    var ID: int
    var speed: Option<real>

    function Record(): Fields
      reads this
    {
      Fields(R, color, m, x, y, ID)
    }

    function State(): Motion
      reads this
    {
      Motion(x, y, speed)
    }

    /** `Star()`, `Planet()`, `Satelite()`. */
    constructor (kind: Kind)
      ensures this.kind == kind && Record() == Fields(0, [], 0.0, 0.0, 0.0, 0) && speed == None
    {
      this.kind := kind;
      R, color, m, x, y, ID := 0, [], 0.0, 0.0, 0.0, 0;
      speed := None;
    }

    /**
     * `parse_cosmic_body_parameters` (and `parse_star_parameters`, which
     * only calls it): a skipped line changes nothing; otherwise the fields
     * are assigned from the tokens in order until one fails, and the
     * failure's exception is the result. The fields that end assigned are
     * those of Assigned, which follows the order of the assignments.
     */
    method ParseCosmicBodyParameters(line: string) returns (res: Result<()>)
      modifies this
      ensures Skipped(line) ==> res == Ok(()) && Record() == old(Record())
      ensures !Skipped(line) ==> (Split(line) != []
        && Record() == Assigned(Split(line), old(Record()))
        && res == (if ParseBody(Split(line)).Ok? then Ok(()) else Err(ParseBody(Split(line)).error)))
      ensures speed == old(speed)
    {
      var t := Strip(line);
      if t != [] && t[0] != '#' {
        UnskippedTokens(line);
        res := AssignFields(Split(t));
      } else {
        res := Ok(());
      }
    }

    /** The assignments of `parse_cosmic_body_parameters` on the tokens of a line, in order, until one raises. */
    method AssignFields(parts: seq<string>) returns (res: Result<()>)
      requires parts != []
      modifies this
      ensures Record() == Assigned(parts, old(Record()))
      ensures res == if ParseBody(parts).Ok? then Ok(()) else Err(ParseBody(parts).error)
      ensures speed == old(speed)
    {
      if |parts| < 2 {
        return Err(IndexError);
      }
      var r := ParseInt(parts[1]);
      if r.None? {
        return Err(ValueError);
      }
      R := r.value;
      if |parts| < 3 {
        return Err(IndexError);
      }
      color := parts[2];
      if |parts| < 4 {
        return Err(IndexError);
      }
      var mass := ParseFloat(parts[3]);
      if mass.None? {
        return Err(ValueError);
      }
      m := mass.value;
      if |parts| < 5 {
        return Err(IndexError);
      }
      var nx := ParseFloat(parts[4]);
      if nx.None? {
        return Err(ValueError);
      }
      x := nx.value;
      if |parts| < 6 {
        return Err(IndexError);
      }
      var ny := ParseFloat(parts[5]);
      if ny.None? {
        return Err(ValueError);
      }
      y := ny.value;
      var id := ParseInt(parts[|parts| - 1]);
      if id.None? {
        return Err(ValueError);
      }
      ID := id.value;
      res := Ok(());
    }

    /**
     * `parse_planet_parameters` (and `parse_satelite_parameters`, which
     * only calls it): the body's fields as above, then, on a line that is
     * not skipped, V_tg = float(parts[6]).
     */
    method ParsePlanetParameters(line: string) returns (res: Result<()>)
      requires IsPlanet(kind)
      modifies this
      ensures Skipped(line) ==> res == Ok(()) && Record() == old(Record()) && speed == old(speed)
      ensures !Skipped(line) ==> var parts := Split(line);
        parts != [] && Record() == Assigned(parts, old(Record()))
        && (ParseBody(parts).Err? ==> res == Err(ParseBody(parts).error) && speed == old(speed))
        && (ParseBody(parts).Ok? && |parts| < 7 ==> res == Err(IndexError) && speed == old(speed))
        && (ParseBody(parts).Ok? && |parts| >= 7 ==>
              if ParseFloat(parts[6]).Some? then res == Ok(()) && speed == ParseFloat(parts[6])
              else res == Err(ValueError) && speed == old(speed))
    {
      res := ParseCosmicBodyParameters(line);
      if res.Err? {
        return;
      }
      var t := Strip(line);
      if t != [] && t[0] != '#' {
        UnskippedTokens(line);
        var parts := Split(t);
        if |parts| < 7 {
          return Err(IndexError);
        }
        var v := ParseFloat(parts[6]);
        if v.None? {
          return Err(ValueError);
        }
        speed := v;
      }
    }

    /**
     * `rotate_planet_around(center_body, dt)`: the step Rotated describes,
     * with V_tg set; the centre is read before the body moves, which
     * matters only when the body is its own centre, and then it stays put.
     */
    method RotatePlanetAround(centre: CosmicBody, orbit: Orbit)
      modifies this
      ensures State() == Rotated(old(State()), old(centre.x), old(centre.y), old(centre.m), orbit, true)
      ensures Record() == old(Record()).(x := x, y := y)
    {
      var next := Rotated(State(), centre.x, centre.y, centre.m, orbit, true);
      x, y, speed := next.x, next.y, next.speed;
    }

    /** `rotate_satelite_around(center_body, dt)`: the same turn, with V_tg left alone. */
    method RotateSateliteAround(centre: CosmicBody, orbit: Orbit)
      modifies this
      ensures State() == Rotated(old(State()), old(centre.x), old(centre.y), old(centre.m), orbit, false)
      ensures Record() == old(Record()).(x := x, y := y) && speed == old(speed)
    {
      var next := Rotated(State(), centre.x, centre.y, centre.m, orbit, false);
      x, y := next.x, next.y;
    }
  }
}
