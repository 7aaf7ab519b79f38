/**
 * The Tkinter cannon game of laba7/lab7.py: balls that fall, bounce on the
 * floor and are dropped after thirty floor frames, three wandering guns
 * that charge while the button is held, and targets and bombs.
 *
 * The aim (`math.atan` of the mouse offset) with its cosine and sine, and
 * the random draws (`randint` positions, directions and gun speeds), are
 * parameters. Colours and canvas items are not modelled.
 */
module TkCannon {
  import opened Wrappers

  /** Ball, HeavyBall and FastBall. */
  datatype BallKind = Plain | Heavy | Fast

  /** The radius each ball class sets. */
  function BaseRadius(k: BallKind): int
  {
    match k
    case Plain => 10
    case Heavy => 15
    case Fast => 8
  }

  /** The fall per frame: FastBall's own `move` uses 1.5, the others 1.2. */
  function Gravity(k: BallKind): real
  {
    if k == Fast then 1.5 else 1.2
  }

  /** A ball lower than this (y grows downwards) is on the floor. */
  const Floor: real := 500.0
  const RightWall: real := 780.0
  /** A new ball's `live`. */
  const LiveFrames: int := 30
  /** The radius a gun counts as in `hittest`. */
  const GunRadius: int := 10
  /** `f2_power` when idle, and the level charging stops at. */
  const IdlePower: int := 10
  const MaxPower: int := 100

  /** What a ball's `move` reads and writes. */
  datatype Motion = Motion(x: real, y: real, vx: real, vy: real, live: int)

  function Abs(a: real): real
  {
    if a < 0.0 then -a else a
  }

  function Energy(m: Motion): real
  {
    m.vx * m.vx + m.vy * m.vy
  }

  /**
   * The first part of `move`: above the floor the ball falls (the speed
   * drops by g, then y moves by the new speed) and slows by 1%; on the
   * floor a ball with squared speed above 10 bounces back to 499 with half
   * its speed, and `live` counts down while it is not negative.
   */
  function FloorOrAir(m: Motion, g: real): Motion
  {
    if m.y <= Floor then
      Motion(m.x + m.vx, m.y - (m.vy - g), m.vx * 0.99, m.vy - g, m.live)
    else
      var b := if Energy(m) > 10.0 then m.(x := m.x, y := 499.0, vx := m.vx / 2.0, vy := -m.vy / 2.0) else m;
      if m.live < 0 then b else b.(live := m.live - 1)
  }

  /** The last part of `move`: a ball past x = 780 is put back at 779 with half its speed, reversed. */
  function Clamp(m: Motion): Motion
  {
    if m.x > RightWall then m.(x := 779.0, vx := -m.vx / 2.0) else m
  }

  /** One whole `move`. */
  function Fly(m: Motion, g: real): Motion
  {
    Clamp(FloorOrAir(m, g))
  }

  /** A ball on the floor whose life has run out: its `move` takes it out of the global list. */
  predicate Spent(m: Motion)
  {
    m.y > Floor && m.live < 0
  }

  /** The ball at rest on the floor: too slow to bounce. */
  predicate Resting(m: Motion)
  {
    m.y > Floor && Energy(m) <= 10.0
  }

  /** `n` frames of `move`. */
  function FlyN(m: Motion, g: real, n: nat): Motion
  {
    if n == 0 then m else Fly(FlyN(m, g, n - 1), g)
  }

  /** After every `move` the ball is left of the wall: x <= 780. */
  lemma FlyLeftOfWall(m: Motion, g: real)
    ensures Fly(m, g).x <= RightWall
    ensures FloorOrAir(m, g).x > RightWall ==> Fly(m, g).x == 779.0 && Fly(m, g).vx == -FloorOrAir(m, g).vx / 2.0
  {
  }

  /**
   * A floor frame: `live` drops by exactly one while it is not negative and
   * stays otherwise; the ball bounces exactly when its squared speed is
   * above 10, and then it is above the floor again with a quarter of that
   * squared speed.
   */
  lemma FloorFrame(m: Motion, g: real)
    requires m.y > Floor
    ensures var r := FloorOrAir(m, g);
      && r.live == (if m.live >= 0 then m.live - 1 else m.live)
      && (Energy(m) > 10.0 ==> r.y == 499.0 && r.y <= Floor && Energy(r) == Energy(m) / 4.0)
      && (Energy(m) <= 10.0 ==> r.y == m.y && r.vx == m.vx && r.vy == m.vy)
  {
  }

  /** `live` never goes below -1, and it never grows. */
  lemma LiveBounded(m: Motion, g: real)
    requires m.live >= -1
    ensures -1 <= Fly(m, g).live <= m.live
  {
  }

  /** Halving a speed component does not raise the squared speed. */
  lemma HalvedSpeed(vx: real, vy: real)
    ensures (-vx / 2.0) * (-vx / 2.0) + vy * vy <= vx * vx + vy * vy
  {
    assert (-vx / 2.0) * (-vx / 2.0) == vx * vx / 4.0;
  }

  /** A resting ball stays at rest, and its `live` counts down by one per frame. */
  lemma RestingFrame(m: Motion, g: real)
    requires Resting(m) && m.live >= 0
    ensures Resting(Fly(m, g)) && Fly(m, g).live == m.live - 1
  {
    HalvedSpeed(m.vx, m.vy);
  }

  /**
   * A ball resting on the floor with `live` = n is spent after n + 1 more
   * frames, so its next `move` takes it out of the global list.
   */
  lemma {:induction false} RestingBallIsSpent(m: Motion, g: real, k: nat)
    requires Resting(m) && m.live >= 0 && k <= m.live + 1
    ensures Resting(FlyN(m, g, k)) && FlyN(m, g, k).live == m.live - k
    ensures k == m.live + 1 ==> Spent(FlyN(m, g, k))
  {
    if k > 0 {
      RestingBallIsSpent(m, g, k - 1);
      RestingFrame(FlyN(m, g, k - 1), g);
    }
  }

  /** `hittest`: the centres are at most r1 + r2 apart along both axes. */
  predicate BoxHit(x1: real, y1: real, r1: real, x2: real, y2: real, r2: real)
  {
    Abs(x2 - x1) <= r1 + r2 && Abs(y2 - y1) <= r1 + r2
  }

  /** The box test does not depend on which object asks. */
  lemma BoxHitSymmetric(x1: real, y1: real, r1: real, x2: real, y2: real, r2: real)
    ensures BoxHit(x1, y1, r1, x2, y2, r2) == BoxHit(x2, y2, r2, x1, y1, r1)
  {
  }

  /** A coordinate difference of at most R in size has a square of at most R squared. */
  lemma SquareBelow(d: real, big: real)
    requires Abs(d) <= big
    ensures d * d <= big * big
  {
    assert (big - Abs(d)) * (big + Abs(d)) >= 0.0;
  }

  /** A coordinate difference larger than R >= 0 in size has a square above R squared. */
  lemma SquareAbove(d: real, big: real)
    requires Abs(d) > big >= 0.0
    ensures d * d > big * big
  {
    if d >= 0.0 {
      SquareGrows(big, d);
    } else {
      SquareGrows(big, -d);
      assert (-d) * (-d) == d * d;
    }
  }

  lemma SquareGrows(b: real, a: real)
    requires 0.0 <= b < a
    ensures b * b < a * a
  {
    ProductPositive(a - b, a + b);
    assert (a - b) * (a + b) == a * a - b * b;
  }

  lemma ProductPositive(p: real, q: real)
    requires p > 0.0 && q > 0.0
    ensures p * q > 0.0
  {
  }

  /**
   * The box test against the real overlap of two circles: overlapping
   * circles always pass it, and centres that pass it are at most
   * sqrt(2) * (r1 + r2) apart.
   */
  lemma BoxHitVersusCircles(x1: real, y1: real, r1: real, x2: real, y2: real, r2: real)
    requires r1 + r2 >= 0.0
    ensures (x2 - x1) * (x2 - x1) + (y2 - y1) * (y2 - y1) <= (r1 + r2) * (r1 + r2) ==> BoxHit(x1, y1, r1, x2, y2, r2)
    ensures BoxHit(x1, y1, r1, x2, y2, r2) ==>
      (x2 - x1) * (x2 - x1) + (y2 - y1) * (y2 - y1) <= 2.0 * (r1 + r2) * (r1 + r2)
  {
    var dx, dy, big := x2 - x1, y2 - y1, r1 + r2;
    if dx * dx + dy * dy <= big * big {
      if Abs(dx) > big {
        SquareAbove(dx, big);
        assert false;
      }
      if Abs(dy) > big {
        SquareAbove(dy, big);
        assert false;
      }
    }
    if BoxHit(x1, y1, r1, x2, y2, r2) {
      SquareBelow(dx, big);
      SquareBelow(dy, big);
    }
  }

  /** The script's global `balls` list. */
  class Arena {
    var balls: seq<Ball>

    ghost predicate Valid()
      reads this
    {
      Distinct(balls)
    }

    constructor ()
      ensures balls == [] && Valid()
    {
      balls := [];
    }
  }

  class Ball {
    const kind: BallKind
    var x: real
    var y: real
    var r: int
    var vx: real
    var vy: real
    var live: int

    function State(): Motion
      reads this
    {
      Motion(x, y, vx, vy, live)
    }

    /** `Ball(x, y, vx, vy)` and the subclasses, which only change the radius. */
    constructor (kind: BallKind, x: real, y: real, vx: real, vy: real)
      ensures this.kind == kind && r == BaseRadius(kind)
      ensures State() == Motion(x, y, vx, vy, LiveFrames)
    {
      this.kind := kind;
      this.x, this.y, this.vx, this.vy := x, y, vx, vy;
      r := BaseRadius(kind);
      live := LiveFrames;
    }

    /**
     * `move`: one frame of flight; a spent ball on the floor takes itself
     * out of the global list when it is there. The gun's own list of the
     * ball is not touched.
     */
    method Move(arena: Arena)
      modifies this, arena
      ensures State() == Fly(old(State()), Gravity(kind)) && r == old(r)
      ensures arena.balls == if Spent(old(State())) then RemoveFirst(old(arena.balls), this) else old(arena.balls)
    {
      if y <= Floor {
        vy := vy - Gravity(kind);
        y := y - vy;
        x := x + vx;
        vx := vx * 0.99;
      } else {
        if vx * vx + vy * vy > 10.0 {
          vy := -vy / 2.0;
          vx := vx / 2.0;
          y := 499.0;
        }
        if live < 0 {
          if this in arena.balls {
            arena.balls := RemoveFirst(arena.balls, this);
          }
        } else {
          live := live - 1;
        }
      }
      if x > RightWall {
        vx := -vx / 2.0;
        x := 779.0;
      }
    }

    /** `hittest` against a gun, which counts as radius 10. */
    predicate HitsGun(g: Gun)
      reads this, g
    {
      BoxHit(x, y, r as real, g.x as real, g.y as real, GunRadius as real)
    }

    /** `hittest` against a target or a bomb, with its own radius. */
    predicate HitsTarget(t: Target)
      reads this, t
    {
      BoxHit(x, y, r as real, t.x as real, t.y as real, t.r as real)
    }
  }

  /** What a gun's `move` reads and writes. */
  datatype Drift = Drift(x: int, y: int, vx: int, vy: int)

  /** `Gun.move`: a step by the speed, then each component turns round when the gun is outside the field on that axis. */
  function Wander(d: Drift): Drift
  {
    var x, y := d.x + d.vx, d.y + d.vy;
    Drift(x, y, if x < 0 || x > 800 then -d.vx else d.vx, if y < 0 || y > 600 then -d.vy else d.vy)
  }

  /** A coordinate is in the field, or one step of its speed brings it back in. */
  predicate NearField(c: int, v: int, high: int)
  {
    0 <= c <= high || 0 <= c + v <= high
  }

  /**
   * A gun's move keeps the size of each speed component, turns it round
   * exactly when the new position is outside the field on that axis, and
   * never takes the gun more than one step outside the field.
   */
  lemma WanderKeepsSpeed(d: Drift)
    ensures var w := Wander(d);
      && (w.x, w.y) == (d.x + d.vx, d.y + d.vy)
      && (w.vx == -d.vx <==> w.x < 0 || w.x > 800 || d.vx == 0)
      && (w.vy == -d.vy <==> w.y < 0 || w.y > 600 || d.vy == 0)
      && (w.vx == d.vx || w.vx == -d.vx) && (w.vy == d.vy || w.vy == -d.vy)
    ensures NearField(d.x, d.vx, 800) && NearField(d.y, d.vy, 600) ==>
      NearField(Wander(d).x, Wander(d).vx, 800) && NearField(Wander(d).y, Wander(d).vy, 600)
  {
  }

  /** `power_up`'s step on the charge: one more while charging and below 100. */
  function Charged(power: int, on: bool): int
  {
    if on && power < MaxPower then power + 1 else power
  }

  /** From anywhere in [10, 100] the charge stays there, and it grows by one exactly while charging below 100. */
  lemma ChargeBounded(power: int, on: bool)
    requires IdlePower <= power <= MaxPower
    ensures IdlePower <= Charged(power, on) <= MaxPower
    ensures Charged(power, on) == power + 1 <==> on && power < MaxPower
  {
  }

  class Gun {
    var f2Power: int
    var f2On: bool
    var an: real
    var x: int
    var y: int
    var ballKind: BallKind
    /** The balls this gun fired. */
    var balls: seq<Ball>
    var vx: int
    var vy: int

    /** The charge is between 10 and 100 and the gun's list has no ball twice. */
    ghost predicate Valid()
      reads this
    {
      IdlePower <= f2Power <= MaxPower && Distinct(balls)
    }

    function Position(): Drift
      reads this
    {
      Drift(x, y, vx, vy)
    }

    /** `Gun(x, y)` with the two `randint(-2, 2)` draws for its speed. */
    constructor (x: int, y: int, vx: int, vy: int)
      requires -2 <= vx <= 2 && -2 <= vy <= 2
      ensures Valid() && f2Power == IdlePower && !f2On && an == 1.0
      ensures Position() == Drift(x, y, vx, vy) && ballKind == Plain && balls == []
    {
      f2Power, f2On, an := IdlePower, false, 1.0;
      this.x, this.y := x, y;
      ballKind := Plain;
      balls := [];
      this.vx, this.vy := vx, vy;
    }

    /** `fire2_start`: charging starts. */
    method Fire2Start()
      requires Valid()
      modifies this
      ensures Valid() && f2On
      ensures f2Power == old(f2Power) && an == old(an) && Position() == old(Position())
      ensures ballKind == old(ballKind) && balls == old(balls)
    {
      f2On := true;
    }

    /**
     * `fire2_end`, whether or not the gun was charging: a ball of the
     * selected type at the gun, five larger than its class makes it, with
     * speed f2_power along the aim (`aim` is the angle `atan` gives,
     * `cosAim` and `sinAim` its cosine and sine), is appended to the gun's
     * list and to the global one, and the gun goes back to idle.
     */
    method Fire2End(arena: Arena, aim: real, cosAim: real, sinAim: real)
      requires Valid() && arena.Valid()
      modifies this, arena
      ensures Valid() && arena.Valid()
      ensures |balls| == |old(balls)| + 1 && balls[..|old(balls)|] == old(balls)
      ensures arena.balls == old(arena.balls) + [balls[|old(balls)|]]
      ensures var b := balls[|old(balls)|];
        && fresh(b) && b.kind == old(ballKind) && b.r == BaseRadius(b.kind) + 5
        && b.State() == Motion(x as real, y as real, old(f2Power) as real * cosAim, -(old(f2Power) as real) * sinAim, LiveFrames)
      ensures !f2On && f2Power == IdlePower && an == aim
      ensures Position() == old(Position()) && ballKind == old(ballKind)
    {
      var b := new Ball(ballKind, x as real, y as real, 0.0, 0.0);
      b.r := b.r + 5;
      an := aim;
      b.vx := f2Power as real * cosAim;
      b.vy := -(f2Power as real) * sinAim;
      balls := balls + [b];
      arena.balls := arena.balls + [b];
      f2On := false;
      f2Power := IdlePower;
    }

    /** `targetting`: turns to the aim of the event (`None` when called without one). */
    method Targetting(aim: Option<real>)
      requires Valid()
      modifies this
      ensures Valid() && an == if aim.Some? then aim.value else old(an)
      ensures f2Power == old(f2Power) && f2On == old(f2On) && Position() == old(Position())
      ensures ballKind == old(ballKind) && balls == old(balls)
    {
      if aim.Some? {
        an := aim.value;
      }
    }

    /** `power_up`: one more unit of charge while charging and below 100. */
    method PowerUp()
      requires Valid()
      modifies this
      ensures Valid() && f2Power == Charged(old(f2Power), old(f2On))
      ensures f2On == old(f2On) && an == old(an) && Position() == old(Position())
      ensures ballKind == old(ballKind) && balls == old(balls)
    {
      if f2On {
        if f2Power < MaxPower {
          f2Power := f2Power + 1;
        }
      }
    }

    /** `move`: the gun wanders, turning round outside the 800 x 600 field. */
    method Move()
      requires Valid()
      modifies this
      ensures Valid() && Position() == Wander(old(Position()))
      ensures f2Power == old(f2Power) && f2On == old(f2On) && an == old(an)
      ensures ballKind == old(ballKind) && balls == old(balls)
    {
      x := x + vx;
      y := y + vy;
      if x < 0 || x > 800 {
        vx := -vx;
      }
      if y < 0 || y > 600 {
        vy := -vy;
      }
    }

    /** `change_ball_type`: the keys 1, 2 and 3 select the class of the next balls. */
    method ChangeBallType(kind: BallKind)
      requires Valid()
      modifies this
      ensures Valid() && ballKind == kind
      ensures f2Power == old(f2Power) && f2On == old(f2On) && an == old(an)
      ensures Position() == old(Position()) && balls == old(balls)
    {
      ballKind := kind;
    }
  }

  /** A fired ball is 15, 20 or 13 across the three ball classes. */
  lemma FiredRadius(k: BallKind)
    ensures BaseRadius(k) + 5 == match k case Plain => 15 case Heavy => 20 case Fast => 13
  {
  }

  /** StaticTarget, MovingTarget and Bomb. */
  datatype TargetKind = Static | Moving | Bombing

  /** The area `new_target` draws from: `randint(50, 780)` and `randint(50, 500)`. */
  predicate InDrawArea(x: int, y: int)
  {
    50 <= x <= 780 && 50 <= y <= 500
  }

  /** The four steps of MovingTarget.move, picked by `randint(0, 3)`. */
  const Directions: seq<(int, int)> := [(5, 0), (-5, 0), (0, 5), (0, -5)]

  /** A bomb's fall per frame. */
  const BombSpeed: int := 5

  class Target {
    const kind: TargetKind
    var points: int
    var x: int
    var y: int
    var r: int
    var live: bool
    /** A bomb's fall speed; the other targets do not use it. */
    var vy: int

    /**
     * `Target()` and its subclasses: no points, placed by `new_target` at
     * the draw (nx, ny), alive. A Bomb then moves to the top at the draw
     * `bx` with radius 15 and speed 5.
     */
    constructor (kind: TargetKind, nx: int, ny: int, bx: int)
      requires InDrawArea(nx, ny) && 50 <= bx <= 780
      ensures this.kind == kind && points == 0 && live
      ensures kind != Bombing ==> (x, y, r) == (nx, ny, 20)
      ensures kind == Bombing ==> (x, y, r, vy) == (bx, 0, 15, BombSpeed)
    {
      this.kind := kind;
      points := 0;
      x, y, r := nx, ny, 20;
      live := true;
      vy := 0;
      new;
      if kind == Bombing {
        x, y, vy, r := bx, 0, BombSpeed, 15;
      }
    }

    /** `new_target`: a new place drawn in the area, radius 20. */
    method NewTarget(nx: int, ny: int)
      requires InDrawArea(nx, ny)
      modifies this
      ensures (x, y, r) == (nx, ny, 20)
      ensures points == old(points) && live == old(live) && vy == old(vy)
    {
      x, y, r := nx, ny, 20;
    }

    /** `hit(points=1)`: the score grows by `p`. */
    method Hit(p: int)
      modifies this
      ensures points == old(points) + p
      ensures (x, y, r) == old((x, y, r)) && live == old(live) && vy == old(vy)
    {
      points := points + p;
    }

    /**
     * `move`: a StaticTarget stays; a MovingTarget takes the step `dir`
     * drew; a bomb falls by its speed and, once below the screen, is placed
     * again by `new_target` at (nx, ny).
     */
    method Move(dir: nat, nx: int, ny: int)
      requires dir < 4 && InDrawArea(nx, ny)
      modifies this
      ensures kind == Static ==> (x, y, r) == old((x, y, r))
      ensures kind == Moving ==> (x, y) == (old(x) + Directions[dir].0, old(y) + Directions[dir].1) && r == old(r)
      ensures kind == Bombing && old(y) + old(vy) <= 600 ==> (x, y, r) == (old(x), old(y) + old(vy), old(r))
      ensures kind == Bombing && old(y) + old(vy) > 600 ==> (x, y, r) == (nx, ny, 20)
      ensures points == old(points) && live == old(live) && vy == old(vy)
    {
      match kind {
        case Static =>
        case Moving =>
          var d := Directions[dir];
          x := x + d.0;
          y := y + d.1;
        case Bombing =>
          y := y + vy;
          if y > 600 {
            NewTarget(nx, ny);
          }
      }
    }
  }

  /** Every step of a MovingTarget is 5 along exactly one axis. */
  lemma DirectionsAreUnitSteps(dir: nat)
    requires dir < 4
    ensures var d := Directions[dir];
      (d.0 == 0 && (d.1 == 5 || d.1 == -5)) || (d.1 == 0 && (d.0 == 5 || d.0 == -5))
  {
  }

  /**
   * The hit rule of the frame loop for one ball and one target: a live
   * target the ball hits dies and scores a point.
   */
  method Strike(b: Ball, t: Target)
    modifies t
    ensures old(b.HitsTarget(t) && t.live) ==> !t.live && t.points == old(t.points) + 1
    ensures !old(b.HitsTarget(t) && t.live) ==> t.live == old(t.live) && t.points == old(t.points)
    ensures (t.x, t.y, t.r) == old((t.x, t.y, t.r))
  {
    if b.HitsTarget(t) && t.live {
      t.live := false;
      t.Hit(1);
    }
  }

  /**
   * The ball loop of a frame for one gun, `for b in g.balls: b.move()`:
   * every ball of the gun takes one frame, and the spent ones leave the
   * global list only. The gun keeps all of them, so a spent ball stays in
   * its list and goes on moving every frame.
   */
  method MoveVolley(g: Gun, arena: Arena)
    requires g.Valid() && arena.Valid()
    modifies g.balls, arena
    ensures arena.Valid()
    ensures forall k :: 0 <= k < |g.balls| ==>
      g.balls[k].State() == Fly(old(g.balls[k].State()), Gravity(g.balls[k].kind))
    ensures forall b :: b in arena.balls <==> b in old(arena.balls) && !(b in g.balls && Spent(old(b.State())))
    ensures arena.balls == Filtered(old(arena.balls), Landed(g.balls, old(States(g.balls)), |g.balls|))
  {
    ghost var before := States(g.balls);
    FilteredNone(arena.balls);
    assert Landed(g.balls, before, 0) == {};
    for i := 0 to |g.balls|
      invariant arena.Valid()
      invariant forall k :: 0 <= k < i ==> g.balls[k].State() == Fly(before[k], Gravity(g.balls[k].kind))
      invariant forall k :: i <= k < |g.balls| ==> g.balls[k].State() == before[k]
      invariant arena.balls == Filtered(old(arena.balls), Landed(g.balls, before, i))
    {
      VolleyTurn(g, arena, before, i);
      if Spent(before[i]) {
        assert Landed(g.balls, before, i + 1) == Landed(g.balls, before, i) + {g.balls[i]};
        FilteredRemove(old(arena.balls), Landed(g.balls, before, i), g.balls[i]);
      } else {
        assert Landed(g.balls, before, i + 1) == Landed(g.balls, before, i);
      }
    }
    FilteredMembers(old(arena.balls), Landed(g.balls, before, |g.balls|));
    forall b | b in g.balls
      ensures b in Landed(g.balls, before, |g.balls|) <==> Spent(old(b.State()))
    {
      var k :| 0 <= k < |g.balls| && g.balls[k] == b;
    }
  }

  /** The first `i` balls of a volley whose states `before` were spent: those a frame takes out of the global list. */
  ghost function Landed(bs: seq<Ball>, before: seq<Motion>, i: nat): set<Ball>
    requires i <= |bs| && i <= |before|
  {
    set k | 0 <= k < i && Spent(before[k]) :: bs[k]
  }

  function States(bs: seq<Ball>): (ss: seq<Motion>)
    reads bs
    ensures |ss| == |bs| && forall k :: 0 <= k < |bs| ==> ss[k] == bs[k].State()
  {
    seq(|bs|, k requires 0 <= k < |bs| reads bs => bs[k].State())
  }

  /** The turn of ball `i` in MoveVolley. */
  method VolleyTurn(g: Gun, arena: Arena, ghost before: seq<Motion>, i: nat)
    requires g.Valid() && arena.Valid() && i < |g.balls| && |before| == |g.balls|
    requires forall k :: i <= k < |g.balls| ==> g.balls[k].State() == before[k]
    modifies g.balls[i], arena
    ensures arena.Valid()
    ensures g.balls[i].State() == Fly(before[i], Gravity(g.balls[i].kind))
    ensures forall k :: 0 <= k < |g.balls| && k != i ==> g.balls[k].State() == old(g.balls[k].State())
    ensures arena.balls == if Spent(before[i]) then RemoveFirst(old(arena.balls), g.balls[i]) else old(arena.balls)
  {
    var b := g.balls[i];
    b.Move(arena);
    RemoveFirstDistinct(old(arena.balls), b);
    RemoveFirstMembers(old(arena.balls), b);
    forall k | 0 <= k < |g.balls| && k != i
      ensures g.balls[k].State() == old(g.balls[k].State())
    {
      assert g.balls[k] != g.balls[i];
    }
  }
}
