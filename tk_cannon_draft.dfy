/**
 * The first draft of the cannon game, laba6/pushka.py: one gun at a fixed
 * place, two randomly wandering targets, and balls with the physics of
 * laba7/lab7.py without the heavy and fast kinds.
 *
 * The draft's classes define `init` where Python expects `__init__`, so
 * `ball()`, `gun()` and `target()` create objects without attributes. The
 * classes below take `init` as the constructor it was meant to be; the one
 * place where the draft creates an object and reads it before anything
 * assigns its attributes, `fire2_end`, is also modelled as written
 * (Gun.Fire2EndAsWritten).
 */
module TkCannonDraft {
  import opened Wrappers
  import TkCannon

  /** Where `ball.init` puts a ball by default: the gun's muzzle. */
  const MuzzleX: int := 40
  const MuzzleY: int := 450
  /** The point `targetting` measures the aim from. */
  const PivotX: int := 20
  /** The fall per frame. */
  const Gravity: real := 1.2
  /** `round(2, 50)`: 2 rounded to 50 decimals, which is 2. */
  const TargetRadius: int := 2
  const BallRadius: int := 10

  /** The draft's global `balls` list and its shot counter `bullet`. */
  class Arena {
    var balls: seq<Ball>
    var bullet: int

    ghost predicate Valid()
      reads this
    {
      Distinct(balls)
    }

    constructor ()
      ensures balls == [] && bullet == 0 && Valid()
    {
      balls := [];
      bullet := 0;
    }
  }

  class Ball {
    /** Whether `init` has run, that is, whether the attributes exist. */
    var ready: bool
    var x: real
    var y: real
    var r: int
    var vx: real
    var vy: real
    var live: int

    function State(): TkCannon.Motion
      reads this
    {
      TkCannon.Motion(x, y, vx, vy, live)
    }

    /** `ball()` as the draft writes it: the class has no `__init__`, so nothing is set. */
    constructor Bare()
      ensures !ready
    {
      ready := false;
    }

    /** `ball.init(x=40, y=450)`: radius 10, at rest, 30 floor frames to live. */
    constructor (x: real, y: real)
      ensures ready && r == BallRadius
      ensures State() == TkCannon.Motion(x, y, 0.0, 0.0, TkCannon.LiveFrames)
    {
      ready := true;
      this.x, this.y := x, y;
      r := BallRadius;
      vx, vy := 0.0, 0.0;
      live := TkCannon.LiveFrames;
    }

    /**
     * `move`: one frame as in the finished game, except that a spent ball
     * takes itself out of the global list without checking that it is
     * there: `index` raises ValueError when it is not, after the bounce and
     * before the wall clamp.
     */
    method Move(arena: Arena) returns (res: Result<()>)
      modifies this, arena
      ensures res.Err? <==> TkCannon.Spent(old(State())) && this !in old(arena.balls)
      ensures res.Err? ==> (res.error == ValueError && arena.balls == old(arena.balls)
        && State() == TkCannon.FloorOrAir(old(State()), Gravity))
      ensures res.Ok? ==> (State() == TkCannon.Fly(old(State()), Gravity)
        && arena.balls == if TkCannon.Spent(old(State())) then RemoveFirst(old(arena.balls), this) else old(arena.balls))
      ensures r == old(r) && ready == old(ready) && arena.bullet == old(arena.bullet)
    {
      if y <= TkCannon.Floor {
        vy := vy - Gravity;
        y := y - vy;
        x := x + vx;
        vx := vx * 0.99;
      } else {
        if vx * vx + vy * vy > 10.0 {
          vy := -vy / 2.0;
          vx := vx / 2.0;
          y := 499.0;
        }
        if live < 0 {
          if this !in arena.balls {
            return Err(ValueError);
          }
          arena.balls := RemoveFirst(arena.balls, this);
        } else {
          live := live - 1;
        }
      }
      if x > TkCannon.RightWall {
        vx := -vx / 2.0;
        x := 779.0;
      }
      res := Ok(());
    }

    /** `hittest`: the box test with the target's own radius. */
    predicate Hits(t: Target)
      reads this, t
    {
      TkCannon.BoxHit(x, y, r as real, t.x as real, t.y as real, t.r as real)
    }
  }

  class Gun {
    var f2Power: int
    var f2On: bool
    var an: real

    /** The charge is between 10 and 100. */
    ghost predicate Valid()
      reads this
    {
      TkCannon.IdlePower <= f2Power <= TkCannon.MaxPower
    }

    /** `gun.init`: idle, at power 10, aimed at angle 1. */
    constructor ()
      ensures Valid() && f2Power == TkCannon.IdlePower && !f2On && an == 1.0
    {
      f2Power, f2On, an := TkCannon.IdlePower, false, 1.0;
    }

    /** `fire2_start`: charging starts. */
    method Fire2Start()
      requires Valid()
      modifies this
      ensures Valid() && f2On && f2Power == old(f2Power) && an == old(an)
    {
      f2On := true;
    }

    /**
     * `fire2_end` as the draft writes it: the shot is counted, then the new
     * ball, which `ball()` left without attributes, is asked for its radius
     * and AttributeError ends the handler; no release ever fires a ball.
     */
    method Fire2EndAsWritten(arena: Arena, eventX: int, aim: real, cosAim: real, sinAim: real) returns (res: Result<()>)
      requires Valid() && arena.Valid()
      modifies this, arena
      ensures res == Err(AttributeError)
      ensures arena.bullet == old(arena.bullet) + 1 && arena.balls == old(arena.balls)
      ensures f2Power == old(f2Power) && f2On == old(f2On) && an == old(an)
    {
      arena.bullet := arena.bullet + 1;
      var b := new Ball.Bare();
      // `new_ball.r += 5` reads an attribute only `init` would have set
      res := if b.ready then Ok(()) else Err(AttributeError);
    }

    /**
     * `fire2_end` with `init` run on the new ball: the shot is counted; a
     * release straight above or below the muzzle (x = 40) divides by zero
     * in the aim and fires nothing; otherwise a ball of radius 15 leaves
     * the muzzle with speed f2_power along the aim (`aim` is the angle
     * `atan` gives, `cosAim` and `sinAim` its cosine and sine), joins the
     * global list, and the gun goes back to idle.
     */
    method Fire2End(arena: Arena, eventX: int, aim: real, cosAim: real, sinAim: real) returns (res: Result<()>)
      requires Valid() && arena.Valid()
      modifies this, arena
      ensures Valid() && arena.Valid()
      ensures arena.bullet == old(arena.bullet) + 1
      ensures eventX == MuzzleX ==> (res == Err(ZeroDivisionError) && arena.balls == old(arena.balls)
        && f2Power == old(f2Power) && f2On == old(f2On) && an == old(an))
      ensures eventX != MuzzleX ==> (res.Ok?
        && |arena.balls| == |old(arena.balls)| + 1 && arena.balls[..|old(arena.balls)|] == old(arena.balls)
        && fresh(arena.balls[|old(arena.balls)|]) && arena.balls[|old(arena.balls)|].r == BallRadius + 5
        && arena.balls[|old(arena.balls)|].State() ==
             TkCannon.Motion(MuzzleX as real, MuzzleY as real, old(f2Power) as real * cosAim, -(old(f2Power) as real) * sinAim, TkCannon.LiveFrames)
        && !f2On && f2Power == TkCannon.IdlePower && an == aim)
    {
      arena.bullet := arena.bullet + 1;
      var b := new Ball(MuzzleX as real, MuzzleY as real);
      res := Fire2Launch(arena, b, eventX, aim, cosAim, sinAim);
    }

    /** What `fire2_end` does with the new ball, from `new_ball.r += 5` on. */
    method Fire2Launch(arena: Arena, b: Ball, eventX: int, aim: real, cosAim: real, sinAim: real) returns (res: Result<()>)
      requires Valid() && arena.Valid() && b.ready && b !in arena.balls
      requires b.State() == TkCannon.Motion(MuzzleX as real, MuzzleY as real, 0.0, 0.0, TkCannon.LiveFrames) && b.r == BallRadius
      modifies this, arena, b
      ensures Valid() && arena.Valid() && arena.bullet == old(arena.bullet)
      ensures eventX == MuzzleX ==> (res == Err(ZeroDivisionError) && arena.balls == old(arena.balls)
        && f2Power == old(f2Power) && f2On == old(f2On) && an == old(an))
      ensures eventX != MuzzleX ==> (res.Ok? && arena.balls == old(arena.balls) + [b] && b.r == BallRadius + 5
        && b.State() == TkCannon.Motion(MuzzleX as real, MuzzleY as real, old(f2Power) as real * cosAim, -(old(f2Power) as real) * sinAim, TkCannon.LiveFrames)
        && !f2On && f2Power == TkCannon.IdlePower && an == aim)
    {
      b.r := b.r + 5;
      if eventX == MuzzleX {
        return Err(ZeroDivisionError);
      }
      an := aim;
      b.vx := f2Power as real * cosAim;
      b.vy := -(f2Power as real) * sinAim;
      arena.balls := arena.balls + [b];
      f2On := false;
      f2Power := TkCannon.IdlePower;
      res := Ok(());
    }

    /**
     * `targetting`: with an event (`eventX` its x), the gun turns to the
     * aim, measured from (20, 450); an event straight above or below that
     * point divides by zero and leaves the angle as it was.
     */
    method Targetting(eventX: Option<int>, aim: real) returns (res: Result<()>)
      requires Valid()
      modifies this
      ensures res.Err? <==> eventX == Some(PivotX)
      ensures res.Err? ==> res.error == ZeroDivisionError
      ensures an == if eventX.Some? && eventX.value != PivotX then aim else old(an)
      ensures Valid() && f2Power == old(f2Power) && f2On == old(f2On)
    {
      if eventX.Some? {
        if eventX.value == PivotX {
          return Err(ZeroDivisionError);
        }
        an := aim;
      }
      res := Ok(());
    }

    /** `power_up`: one more unit of charge while charging and below 100. */
    method PowerUp()
      requires Valid()
      modifies this
      ensures Valid() && f2Power == TkCannon.Charged(old(f2Power), old(f2On))
      ensures f2On == old(f2On) && an == old(an)
    {
      if f2On {
        if f2Power < TkCannon.MaxPower {
          f2Power := f2Power + 1;
        }
      }
    }
  }

  class Target {
    var points: int
    var x: int
    var y: int
    var r: int
    var live: bool

    /** `target.init`: no points, placed by `new_target` at the draw (nx, ny), alive. */
    constructor (nx: int, ny: int)
      requires TkCannon.InDrawArea(nx, ny)
      ensures points == 0 && (x, y, r) == (nx, ny, TargetRadius) && live
    {
      points := 0;
      x, y, r := nx, ny, TargetRadius;
      live := true;
    }

    /** `new_target`: a new place drawn in the area; the radius is `round(2, 50)`, so 2. */
    method NewTarget(nx: int, ny: int)
      requires TkCannon.InDrawArea(nx, ny)
      modifies this
      ensures (x, y, r) == (nx, ny, TargetRadius)
      ensures points == old(points) && live == old(live)
    {
      x, y, r := nx, ny, TargetRadius;
    }

    /** `hit(points=1)`: the score grows by `p`. */
    method Hit(p: int)
      modifies this
      ensures points == old(points) + p
      ensures (x, y, r) == old((x, y, r)) && live == old(live)
    {
      points := points + p;
    }

    /** `rand_mv`: the step `dir` drew, 5 along one axis. */
    method RandMv(dir: nat)
      requires dir < 4
      modifies this
      ensures (x, y) == (old(x) + TkCannon.Directions[dir].0, old(y) + TkCannon.Directions[dir].1)
      ensures r == old(r) && points == old(points) && live == old(live)
    {
      var d := TkCannon.Directions[dir];
      x := x + d.0;
      y := y + d.1;
    }
  }
}
