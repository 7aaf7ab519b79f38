/**
 * Integer particles bouncing inside a square box (lab2/5.py): before each
 * move a speed component is negated when the next step along that axis
 * would leave the inner box, then the coordinate advances by the speed.
 */
module GasBox {

  const Radius: int := 10
  const MinX: int := -200 + Radius
  const MinY: int := -200 + Radius
  const MaxX: int := 200 - Radius
  const MaxY: int := 200 - Radius
  /** The speed components are drawn with randint(-10, 10). */
  const MaxSpeed: int := 10

  datatype Vec = Vec(x: int, y: int)

  /** One particle: its coordinates and its speed. */
  datatype Particle = Particle(pos: Vec, speed: Vec)

  predicate InRange(c: int, lo: int, hi: int) { lo <= c <= hi }

  predicate InBox(p: Vec) { InRange(p.x, MinX, MaxX) && InRange(p.y, MinY, MaxY) }

  predicate SlowEnough(v: Vec) { -MaxSpeed <= v.x <= MaxSpeed && -MaxSpeed <= v.y <= MaxSpeed }

  function Abs(n: int): nat { if n < 0 then -n else n }

  /** The speed along one axis after the wall test of that axis. */
  function Reflect(c: int, s: int, lo: int, hi: int): int
  {
    if c + s > hi || c + s < lo then -s else s
  }

  /** One pass of the inner loop body for one particle. */
  function Step(p: Particle): (q: Particle)
  {
    var sx := Reflect(p.pos.x, p.speed.x, MinX, MaxX);
    var sy := Reflect(p.pos.y, p.speed.y, MinY, MaxY);
    Particle(Vec(p.pos.x + sx, p.pos.y + sy), Vec(sx, sy))
  }

  /** The particle after n steps. */
  function StepN(p: Particle, n: nat): Particle
    decreases n
  {
    if n == 0 then p else Step(StepN(p, n - 1))
  }

  /** A speed component is negated exactly when the next step would leave the box. */
  lemma ReflectNegatesIffLeaving(c: int, s: int, lo: int, hi: int)
    requires s != 0
    ensures Reflect(c, s, lo, hi) == -s <==> (c + s > hi || c + s < lo)
  {
  }

  /** Each step adds the (possibly negated) speed and keeps |speed| per component. */
  lemma StepKeepsSpeedMagnitude(p: Particle)
    ensures Abs(Step(p).speed.x) == Abs(p.speed.x) && Abs(Step(p).speed.y) == Abs(p.speed.y)
    ensures Step(p).pos == Vec(p.pos.x + Step(p).speed.x, p.pos.y + Step(p).speed.y)
  {
  }

  /** With |speed| <= 10, a coordinate inside [lo, hi] stays inside after the step. */
  lemma AxisStaysInRange(c: int, s: int, lo: int, hi: int)
    requires InRange(c, lo, hi) && hi - lo >= 2 * MaxSpeed && -MaxSpeed <= s <= MaxSpeed
    ensures InRange(c + Reflect(c, s, lo, hi), lo, hi)
  {
  }

  lemma StepStaysInBox(p: Particle)
    requires InBox(p.pos) && SlowEnough(p.speed)
    ensures InBox(Step(p).pos) && SlowEnough(Step(p).speed)
  {
    AxisStaysInRange(p.pos.x, p.speed.x, MinX, MaxX);
    AxisStaysInRange(p.pos.y, p.speed.y, MinY, MaxY);
  }

  /** The stay-in-box invariant holds after any number of steps. */
  lemma {:induction false} StepNStaysInBox(p: Particle, n: nat)
    requires InBox(p.pos) && SlowEnough(p.speed)
    ensures InBox(StepN(p, n).pos) && SlowEnough(StepN(p, n).speed)
    ensures Abs(StepN(p, n).speed.x) == Abs(p.speed.x) && Abs(StepN(p, n).speed.y) == Abs(p.speed.y)
    decreases n
  {
    if n > 0 {
      StepNStaysInBox(p, n - 1);
      StepStaysInBox(StepN(p, n - 1));
      StepKeepsSpeedMagnitude(StepN(p, n - 1));
    }
  }

  /**
   * The main loop: `steps` rounds, each moving every particle once, updating
   * the coordinate and speed lists in place.
   */
  method Simulate(coordinates: array<Vec>, speeds: array<Vec>, steps: nat)
    requires coordinates.Length == speeds.Length && coordinates != speeds
    modifies coordinates, speeds
    ensures forall i :: 0 <= i < coordinates.Length ==>
      Particle(coordinates[i], speeds[i]) == StepN(Particle(old(coordinates[i]), old(speeds[i])), steps)
  {
    var t := 0;
    while t < steps
      invariant 0 <= t <= steps
      invariant forall i :: 0 <= i < coordinates.Length ==>
        Particle(coordinates[i], speeds[i]) == StepN(Particle(old(coordinates[i]), old(speeds[i])), t)
    {
      MoveRound(coordinates, speeds);
      t := t + 1;
    }
  }

  /** One round of the main loop: every particle, in index order, takes one step. */
  method MoveRound(coordinates: array<Vec>, speeds: array<Vec>)
    requires coordinates.Length == speeds.Length && coordinates != speeds
    modifies coordinates, speeds
    ensures forall i :: 0 <= i < coordinates.Length ==>
      Particle(coordinates[i], speeds[i]) == Step(Particle(old(coordinates[i]), old(speeds[i])))
  {
    var n := coordinates.Length;
    var i := 0;
    while i < n
      invariant 0 <= i <= n
      invariant forall j :: 0 <= j < i ==>
        Particle(coordinates[j], speeds[j]) == Step(Particle(old(coordinates[j]), old(speeds[j])))
      invariant forall j :: i <= j < n ==> coordinates[j] == old(coordinates[j]) && speeds[j] == old(speeds[j])
    {
      var c, s := coordinates[i], speeds[i];
      if c.x + s.x > MaxX || c.x + s.x < -200 + Radius {
        s := s.(x := -s.x);
      }
      if c.y + s.y > MaxY || c.y + s.y < -200 + Radius {
        s := s.(y := -s.y);
      }
      coordinates[i] := Vec(c.x + s.x, c.y + s.y);
      speeds[i] := s;
      i := i + 1;
    }
  }

  /**
   * The whole script: every coordinate starts at [0, 0], is then placed at
   * its drawn position, and the particles are simulated for `steps` rounds.
   * Every particle ends inside the box with the magnitudes of its drawn speeds.
   */
  method Run(positions: seq<Vec>, drawnSpeeds: seq<Vec>, steps: nat)
    returns (coordinates: array<Vec>, speeds: array<Vec>)
    requires |positions| == |drawnSpeeds|
    requires forall i :: 0 <= i < |positions| ==> InBox(positions[i])
    requires forall i :: 0 <= i < |drawnSpeeds| ==> SlowEnough(drawnSpeeds[i])
    ensures coordinates.Length == speeds.Length == |positions|
    ensures forall i :: 0 <= i < |positions| ==>
      Particle(coordinates[i], speeds[i]) == StepN(Particle(positions[i], drawnSpeeds[i]), steps)
    ensures forall i :: 0 <= i < |positions| ==> InBox(coordinates[i]) && SlowEnough(speeds[i])
    ensures forall i :: 0 <= i < |positions| ==>
      Abs(speeds[i].x) == Abs(drawnSpeeds[i].x) && Abs(speeds[i].y) == Abs(drawnSpeeds[i].y)
  {
    var n := |positions|;
    coordinates := new Vec[n](_ => Vec(0, 0));
    speeds := new Vec[n](i requires 0 <= i < n => drawnSpeeds[i]);
    var i := 0;
    while i < n
      invariant 0 <= i <= n
      invariant forall j :: 0 <= j < i ==> coordinates[j] == positions[j]
      invariant forall j :: 0 <= j < n ==> speeds[j] == drawnSpeeds[j]
    {
      coordinates[i] := positions[i];
      i := i + 1;
    }
    Simulate(coordinates, speeds, steps);
    forall j | 0 <= j < n
      ensures InBox(coordinates[j]) && SlowEnough(speeds[j])
      ensures Abs(speeds[j].x) == Abs(drawnSpeeds[j].x) && Abs(speeds[j].y) == Abs(drawnSpeeds[j].y)
    {
      StepNStaysInBox(Particle(positions[j], drawnSpeeds[j]), steps);
    }
  }
}
