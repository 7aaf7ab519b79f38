/**
 * The guns of the cannon game (laba6/deob.py): `Gun`, which charges while
 * the mouse button is held and fires the next queued ball when it is
 * released, and `MoveableGun`, which also glides back and forth.
 *
 * The aim angle (`math.atan2` of the mouse position) and its cosine and
 * sine are parameters, and so are the random draws: the ball colour
 * `colors.get()`, the refill batch and the `rnd(-40, 40)` offsets.
 */
module Launchers {
  import opened Wrappers
  import Colors
  import opened Projectiles
  import opened PingPong

  /** GUN_TYPES: Gun and MoveableGun. */
  datatype GunKind = Fixed | Moveable

  /** The radius a gun counts as in a ball's hit test. */
  const GunRadius: real := 10.0

  /** `f2_power` when idle, and the level above which charging stops. */
  const IdlePower: real := 20.0
  const MaxPower: real := 100.0

  /** Where every gun is created. */
  const StartX: real := 20.0
  const StartY: real := 450.0

  /** `power_up`'s step on the charge: no clamp, only a test before the step. */
  function Charged(power: real, timestep: real): real
  {
    if power < MaxPower then power + timestep * 100.0 else power
  }

  /**
   * Charging never goes past 100 by more than one step: from at most
   * 100 + 100 * longest, a step of at most `longest` seconds stays there;
   * it grows strictly below 100 and stops at or above it.
   */
  lemma ChargeOvershoot(power: real, timestep: real, longest: real)
    requires 0.0 <= timestep <= longest && power <= MaxPower + longest * 100.0
    ensures Charged(power, timestep) <= MaxPower + longest * 100.0
    ensures power < MaxPower && timestep > 0.0 ==> Charged(power, timestep) > power
    ensures power >= MaxPower ==> Charged(power, timestep) == power
  {
  }

  class Gun {
    const kind: GunKind
    /** The shared BallHandler the gun fires into. */
    const handler: BallHandler
    var f2Power: real
    var f2On: bool
    var angle: real
    /** The packed colour of the aiming line. */
    var color: int
    var active: bool
    var x: real
    var y: real
    /** The ends of a MoveableGun's path; a plain Gun does not read them. */
    var fromX: real
    var fromY: real
    var toX: real
    var toY: real

    function Position(): Track
      reads this
    {
      Track(x, y, fromX, fromY, toX, toY)
    }

    /** `Gun(screen, balls)`, and for a MoveableGun the two `rnd(-40, 40)` draws (dx, dy). */
    constructor (kind: GunKind, handler: BallHandler, dx: int, dy: int)
      requires -40 <= dx <= 40 && -40 <= dy <= 40
      ensures this.kind == kind && this.handler == handler
      ensures f2Power == IdlePower && !f2On && angle == 1.0 && !active
      ensures color == Colors.Value(Colors.Gray)
      ensures (x, y) == (StartX, StartY) && (fromX, fromY) == (StartX, StartY)
      ensures kind == Moveable ==> (toX, toY) == (StartX + dx as real, StartY + dy as real)
      ensures OnPath(Position())
    {
      this.kind := kind;
      this.handler := handler;
      f2Power, f2On, angle := IdlePower, false, 1.0;
      color := Colors.Value(Colors.Gray);
      active := false;
      x, y := StartX, StartY;
      fromX, fromY := StartX, StartY;
      if kind == Moveable {
        toX, toY := StartX + dx as real, StartY + dy as real;
      } else {
        toX, toY := StartX, StartY;
      }
      new;
      assert At(Position(), 0.0);
    }

    /** `fire2_start`: an active gun starts charging. */
    method Fire2Start()
      modifies this
      ensures f2On == (old(f2On) || old(active))
      ensures Position() == old(Position()) && f2Power == old(f2Power) && active == old(active)
      ensures angle == old(angle) && color == old(color)
    {
      if !active {
        return;
      }
      f2On := true;
    }

    /**
     * `fire2_end`: an active, charging gun takes the next ball type from the
     * queue, creates that ball at the gun with speed f2_power along the aim
     * (screen y grows downwards, hence the minus), adds it to the live list
     * and goes back to idle. `aim`, `cosAim` and `sinAim` are the angle
     * `atan2` gives and its cosine and sine; `draw` is the batch a refill
     * would queue and `drawn` the colour of the new ball.
     */
    method Fire2End(draw: seq<BallKind>, drawn: int, aim: real, cosAim: real, sinAim: real)
      requires handler.Valid() && |draw| == RefillSize
      modifies this, handler
      ensures handler.Valid()
      ensures !(old(active) && old(f2On)) ==> unchanged(this) && unchanged(handler)
      ensures old(active) && old(f2On) ==>
        && |handler.balls| == |old(handler.balls)| + 1
        && handler.balls[..|old(handler.balls)|] == old(handler.balls)
        && fresh(handler.balls[|old(handler.balls)|])
        && handler.balls[|old(handler.balls)|].State() ==
             BallState(x, y, BallRadius, old(f2Power) * cosAim, -old(f2Power) * sinAim, BallLive,
                       StartBounces(NextKind(old(handler.queue), draw)), NextKind(old(handler.queue), draw))
        && handler.balls[|old(handler.balls)|].color ==
             (if NextKind(old(handler.queue), draw) == Flying then Colors.Value(Colors.SkyBlue) else drawn)
        && handler.queue == NextQueue(old(handler.queue), draw)
        && handler.shotCount == old(handler.shotCount) + 1
        && !f2On && f2Power == IdlePower && angle == aim
        && Position() == old(Position()) && active && color == old(color)
    {
      if !active || !f2On {
        return;
      }
      var kind := handler.GetNextBall(draw);
      var b := new Ball(kind, x, y, drawn);
      angle := aim;
      b.vx := f2Power * cosAim;
      b.vy := -f2Power * sinAim;
      handler.AddBall(b);
      f2On := false;
      f2Power := IdlePower;
    }

    /** `update_position`: the gun jumps to (nx, ny); a MoveableGun carries its far end along. */
    method UpdatePosition(nx: real, ny: real)
      modifies this
      ensures Position() == if kind == Moveable then Relocate(old(Position()), nx, ny) else old(Position()).(x := nx, y := ny)
      ensures f2Power == old(f2Power) && f2On == old(f2On) && active == old(active)
      ensures angle == old(angle) && color == old(color)
    {
      if kind == Moveable {
        toX := toX + (nx - x);
        toY := toY + (ny - y);
      }
      x, y := nx, ny;
      if kind == Moveable {
        fromX, fromY := x, y;
      }
    }

    /**
     * `targetting`: an active gun turns to the aim of the event (`None`
     * for an event that is false) and shows red while charging, gray
     * otherwise.
     */
    method Targetting(aim: Option<real>)
      modifies this
      ensures old(active) && aim.Some? ==> angle == aim.value
      ensures !old(active) || aim.None? ==> angle == old(angle)
      ensures old(active) ==> color == if f2On then Colors.Value(Colors.Red) else Colors.Value(Colors.Gray)
      ensures !old(active) ==> color == old(color)
      ensures Position() == old(Position()) && f2Power == old(f2Power) && f2On == old(f2On) && active == old(active)
    {
      if !active {
        return;
      }
      if aim.Some? {
        angle := aim.value;
      }
      if f2On {
        color := Colors.Value(Colors.Red);
      } else {
        color := Colors.Value(Colors.Gray);
      }
    }

    /** `move`: a plain gun stays put; a MoveableGun glides with step fraction `timestep`. */
    method Move(timestep: real)
      modifies this
      ensures Position() == if kind == Moveable then Glide(old(Position()), timestep) else old(Position())
      ensures f2Power == old(f2Power) && f2On == old(f2On) && active == old(active)
      ensures angle == old(angle) && color == old(color)
    {
      if kind == Moveable {
        var t := Glide(Position(), timestep);
        x, y, fromX, fromY, toX, toY := t.x, t.y, t.fromX, t.fromY, t.toX, t.toY;
      }
    }

    /**
     * `power_up`: an active, charging gun gains timestep * 100 while below
     * 100 and shows red; otherwise it shows gray.
     */
    method PowerUp(timestep: real)
      modifies this
      ensures f2Power == if old(active) && old(f2On) then Charged(old(f2Power), timestep) else old(f2Power)
      ensures color == if old(active) && old(f2On) then Colors.Value(Colors.Red) else Colors.Value(Colors.Gray)
      ensures Position() == old(Position()) && f2On == old(f2On) && active == old(active) && angle == old(angle)
    {
      if active && f2On {
        if f2Power < MaxPower {
          f2Power := f2Power + timestep * 100.0;
        }
        color := Colors.Value(Colors.Red);
      } else {
        color := Colors.Value(Colors.Gray);
      }
    }
  }
}
