/**
 * The targets of the cannon game (laba6/deob.py): the fixed `Target`, the
 * `CircularTarget` circling its origin, the `MovingTarget` gliding back
 * and forth and the `FallingTarget` that drops and comes back from the top,
 * with the game difficulties that decide their number, size and kinds.
 *
 * The random draws (`rnd` for position, radius and path offset) are
 * parameters, and so are the cosine and sine of the wall-clock angle a
 * CircularTarget reads.
 */
module Targets {
  import Colors
  import opened PingPong

  /** The target classes: Target, CircularTarget, MovingTarget and FallingTarget. */
  datatype TargetKind = Static | Circular | Moving | Falling

  /** `GameDifficulty`: how many targets a round has, their radius range and the kinds it may pick. */
  datatype Difficulty = Difficulty(targets: nat, sizeLow: int, sizeHigh: int, allowed: seq<TargetKind>)

  /** DIFFICULTIES. */
  const Difficulties: seq<Difficulty> := [
    Difficulty(1, 30, 40, [Static]),
    Difficulty(2, 20, 40, [Static, Moving]),
    Difficulty(3, 20, 30, [Static, Moving, Circular])
  ]

  /** GameSettings.GRAVITY_Y and the bottom of the screen. */
  const GravityY: real := 9.8
  const ScreenHeight: real := 600.0

  /** The radius and starting fall speed of a FallingTarget. */
  const FallingRadius: real := 40.0
  const FallingSpeed: real := 9.8

  /** The radius of a CircularTarget's circle. */
  const Orbit: real := 20.0

  /** Where a target is created: `rnd(600, 780)` and `rnd(300, 550)`. */
  predicate InSpawnArea(x: int, y: int)
  {
    600 <= x <= 780 && 300 <= y <= 550
  }

  /**
   * One frame of a FallingTarget's fall, with `lt` = timestep * 10: gravity
   * first, then the position; once it is more than 40 below the screen it
   * comes back at 40 above it, at rest.
   */
  function Fall(y: real, vy: real, lt: real): (real, real)
  {
    var vy' := vy - GravityY * lt;
    var y' := y - vy' * lt;
    if y' > ScreenHeight + 40.0 then (-40.0, 0.0) else (y', vy')
  }

  /** A falling target is never lower than 40 below the screen after a frame, and it is recycled exactly when it would be. */
  lemma FallStaysNearScreen(y: real, vy: real, lt: real)
    ensures Fall(y, vy, lt).0 <= ScreenHeight + 40.0
    ensures y - (vy - GravityY * lt) * lt > ScreenHeight + 40.0 ==> Fall(y, vy, lt) == (-40.0, 0.0)
    ensures y - (vy - GravityY * lt) * lt <= ScreenHeight + 40.0 ==> Fall(y, vy, lt).0 == y - (vy - GravityY * lt) * lt
  {
  }

  /** What a move can change: the position with the path ends, and the fall speed. */
  datatype TargetState = TargetState(pos: Track, vy: real)

  /**
   * One frame of `move` for a target of the given kind and origin: a plain
   * target stays; a CircularTarget stands on the circle of radius 20
   * around its origin at the angle whose cosine and sine are c and s; a
   * MovingTarget glides with half the frame time; a FallingTarget falls.
   */
  function TargetStep(kind: TargetKind, ox: real, oy: real, t: TargetState, timestep: real, c: real, s: real): TargetState
  {
    match kind
    case Static => t
    case Circular => t.(pos := t.pos.(x := ox + c * Orbit, y := oy - s * Orbit))
    case Moving => t.(pos := Glide(t.pos, timestep * 0.5))
    case Falling =>
      var f := Fall(t.pos.y, t.vy, timestep * 10.0);
      TargetState(t.pos.(y := f.0), f.1)
  }

  /**
   * What a step keeps: a plain target does not move; a CircularTarget is at
   * distance 20 from its origin; a MovingTarget keeps or swaps its path ends
   * and, for a frame of at most two seconds, stays on its path; a
   * FallingTarget keeps its column and its path ends and is never more than
   * 40 below the screen.
   */
  lemma TargetStepProperties(kind: TargetKind, ox: real, oy: real, t: TargetState, timestep: real, c: real, s: real)
    requires c * c + s * s == 1.0
    ensures var r := TargetStep(kind, ox, oy, t, timestep, c, s);
      && (kind == Static ==> r == t)
      && (kind == Circular ==> Sq(r.pos.x - ox) + Sq(r.pos.y - oy) == Orbit * Orbit && r.vy == t.vy)
      && (kind == Moving ==> SameEnds(t.pos, r.pos) && r.vy == t.vy)
      && (kind == Moving && OnPath(t.pos) && 0.0 <= timestep <= 2.0 ==> OnPath(r.pos))
      && (kind == Falling ==> r.pos.x == t.pos.x && r.pos.y <= ScreenHeight + 40.0 && SameEnds(t.pos, r.pos))
      && (kind != Moving ==> (r.pos.fromX, r.pos.fromY, r.pos.toX, r.pos.toY) == (t.pos.fromX, t.pos.fromY, t.pos.toX, t.pos.toY))
  {
    match kind {
      case Static =>
      case Circular =>
        CircleRadius(ox, oy, c, s);
      case Moving =>
        GlideApproaches(t.pos, timestep * 0.5);
        if OnPath(t.pos) && 0.0 <= timestep <= 2.0 {
          GlideStaysOnPath(t.pos, timestep * 0.5);
        }
      case Falling =>
        FallStaysNearScreen(t.pos.y, t.vy, timestep * 10.0);
    }
  }

  class Target {
    const kind: TargetKind
    var x: real
    var y: real
    const originX: real
    const originY: real
    const r: real
    const color: int
    /** A MovingTarget's path ends. */
    var fromX: real
    var fromY: real
    var toX: real
    var toY: real
    /** A FallingTarget's vertical speed. */
    var vy: real

    function Position(): Track
      reads this
    {
      Track(x, y, fromX, fromY, toX, toY)
    }

    function State(): TargetState
      reads this
    {
      TargetState(Position(), vy)
    }

    /**
     * `Target(screen, difficulty)` and its subclasses, with the draws
     * (x, y) for the position, `size` for the radius and (dx, dy) for a
     * MovingTarget's far end.
     */
    constructor (kind: TargetKind, d: Difficulty, x: int, y: int, size: int, dx: int, dy: int)
      requires InSpawnArea(x, y) && d.sizeLow <= size <= d.sizeHigh
      requires -40 <= dx <= 40 && -40 <= dy <= 40
      ensures this.kind == kind && (this.x, this.y) == (x as real, y as real) && (originX, originY) == (this.x, this.y)
      ensures r == if kind == Falling then FallingRadius else size as real
      ensures color == Colors.Value(Colors.Red)
      ensures kind == Moving ==> Position() == Track(this.x, this.y, this.x, this.y, this.x + dx as real, this.y + dy as real)
      ensures kind == Falling ==> vy == FallingSpeed
      ensures OnPath(Position())
    {
      this.kind := kind;
      this.x, this.y := x as real, y as real;
      originX, originY := x as real, y as real;
      r := if kind == Falling then FallingRadius else size as real;
      color := Colors.Value(Colors.Red);
      fromX, fromY := x as real, y as real;
      if kind == Moving {
        toX, toY := x as real + dx as real, y as real + dy as real;
      } else {
        toX, toY := x as real, y as real;
      }
      vy := if kind == Falling then FallingSpeed else 0.0;
      new;
      assert At(Position(), 0.0);
    }

    /**
     * `move`: the target takes one step of its kind, the CircularTarget at
     * the angle whose cosine and sine are given.
     */
    method Move(timestep: real, cosAngle: real, sinAngle: real)
      modifies this
      ensures State() == TargetStep(kind, originX, originY, old(State()), timestep, cosAngle, sinAngle)
    {
      match kind {
        case Static =>
        case Circular =>
          x := originX + cosAngle * Orbit;
          y := originY - sinAngle * Orbit;
        case Moving =>
          var t := Glide(Position(), timestep * 0.5);
          x, y, fromX, fromY, toX, toY := t.x, t.y, t.fromX, t.fromY, t.toX, t.toY;
        case Falling =>
          var f := Fall(y, vy, timestep * 10.0);
          y, vy := f.0, f.1;
      }
    }
  }

  /** A CircularTarget is always at distance 20 from its origin. */
  lemma CircleRadius(ox: real, oy: real, c: real, s: real)
    requires c * c + s * s == 1.0
    ensures Sq(ox + c * Orbit - ox) + Sq(oy - s * Orbit - oy) == Orbit * Orbit
  {
    calc {
      Sq(ox + c * Orbit - ox) + Sq(oy - s * Orbit - oy);
      (c * c + s * s) * (Orbit * Orbit);
      Orbit * Orbit;
    }
  }
}
