/**
 * The balls of the cannon game (laba6/deob.py): the three ball variants
 * with their per-frame move and their hit test, and `BallHandler`, the list
 * of live balls together with the queue of ball types still to be fired.
 *
 * Positions and velocities are reals; the frame time `timestep` is a
 * parameter; math.sqrt(2) and math.sqrt(1.25) are decimal constants.
 */
module Projectiles {
  import opened Wrappers
  import Colors

  /** GameSettings.SCREEN_SIZE. */
  const ScreenWidth: real := 800.0
  const ScreenHeight: real := 600.0

  /** GameSettings.GRAVITY_X and GRAVITY_Y. */
  const GravityX: real := 0.0
  const GravityY: real := 9.8

  /** The radius every ball is created with. */
  const BallRadius: real := 10.0

  /** The `live` every ball is created with. */
  const BallLive: int := 30

  /** How many ball types `refill` queues at once. */
  const RefillSize: nat := 15

  /** The classes of AVAILABLE_BALL_TYPES: Ball, BouncyBall and FlyingBall. */
  datatype BallKind = Plain | Bouncy | Flying

  /** The bounces a ball starts with: 15 for a BouncyBall, 4 otherwise. */
  function StartBounces(kind: BallKind): int
  {
    if kind == Bouncy then 15 else 4
  }

  /**
   * A reflected velocity component: divided by minus math.sqrt(2) for Ball
   * and by minus math.sqrt(1.25) for the other two, the roots to eight
   * decimals.
   */
  function Reflect(v: real, kind: BallKind): real
  {
    if kind == Plain then -(v / 1.41421356) else -(v / 1.11803399)
  }

  /** The fields of a ball that `move` and `hittest` use. */
  datatype BallState = BallState(x: real, y: real, r: real, vx: real, vy: real, live: int, bounces: int, kind: BallKind)

  /** The outcome of a move: what it returned and the ball afterwards. */
  datatype Flight = Flight(ok: bool, ball: BallState)

  function Clamp(lo: real, hi: real, v: real): real
  {
    if v < lo then lo else if v > hi then hi else v
  }

  /** `max(lo, min(hi, v))`. */
  lemma ClampInRange(lo: real, hi: real, v: real)
    requires lo <= hi
    ensures lo <= Clamp(lo, hi, v) <= hi
    ensures lo <= v <= hi ==> Clamp(lo, hi, v) == v
  {
  }

  /** Gravity over one frame; a FlyingBall ignores it. */
  function Accelerate(s: BallState, lt: real): BallState
  {
    if s.kind == Flying then s else s.(vx := s.vx + GravityX * lt, vy := s.vy - GravityY * lt)
  }

  /**
   * One wall check of `move`. Without contact nothing changes. A contact
   * with no bounce left makes `move` return False; otherwise it spends one
   * bounce and divides the vertical (or horizontal) velocity by minus the
   * damping.
   */
  function Bounce(s: BallState, contact: bool, vertical: bool): Flight
  {
    if !contact then Flight(true, s)
    else if s.bounces <= 0 then Flight(false, s)
    else if vertical then Flight(true, s.(bounces := s.bounces - 1, vy := Reflect(s.vy, s.kind)))
    else Flight(true, s.(bounces := s.bounces - 1, vx := Reflect(s.vx, s.kind)))
  }

  /**
   * `move` of Ball, BouncyBall and FlyingBall: gravity, then the floor,
   * ceiling, right and left walls in that order, then the position step
   * clamped to the 800x600 field.
   */
  function MoveStep(s: BallState, timestep: real): Flight
  {
    var lt := timestep * 10.0;
    var a := Accelerate(s, lt);
    var b1 := Bounce(a, a.y + a.r >= ScreenHeight, true);
    if !b1.ok then b1 else
    var b2 := Bounce(b1.ball, b1.ball.y - b1.ball.r <= 0.0, true);
    if !b2.ok then b2 else
    var b3 := Bounce(b2.ball, b2.ball.x + b2.ball.r >= ScreenWidth, false);
    if !b3.ok then b3 else
    var b4 := Bounce(b3.ball, b3.ball.x - b3.ball.r <= 0.0, false);
    if !b4.ok then b4 else
    Flight(true, Advance(b4.ball, lt))
  }

  /** The position step of `move`, clamped to the field. */
  function Advance(c: BallState, lt: real): BallState
  {
    c.(x := Clamp(0.0, ScreenWidth, c.x + c.vx * lt), y := Clamp(0.0, ScreenHeight, c.y - c.vy * lt))
  }

  /** A wall contact with a bounce left spends exactly one and reverses that component. */
  lemma BounceReverses(s: BallState, vertical: bool)
    requires s.bounces > 0
    ensures var m := Bounce(s, true, vertical);
      m.ok && m.ball.bounces == s.bounces - 1 &&
      (vertical ==> m.ball.vx == s.vx && (s.vy > 0.0 ==> m.ball.vy < 0.0) && (s.vy < 0.0 ==> m.ball.vy > 0.0)) &&
      (!vertical ==> m.ball.vy == s.vy && (s.vx > 0.0 ==> m.ball.vx < 0.0) && (s.vx < 0.0 ==> m.ball.vx > 0.0))
  {
  }

  /** A wall check never touches the position, and never spends more than one bounce. */
  lemma BounceKeepsPosition(s: BallState, contact: bool, vertical: bool)
    ensures var m := Bounce(s, contact, vertical);
      m.ball.x == s.x && m.ball.y == s.y && m.ball.r == s.r && m.ball.kind == s.kind && m.ball.live == s.live &&
      s.bounces - 1 <= m.ball.bounces <= s.bounces &&
      (m.ok <==> !contact || s.bounces > 0) &&
      (s.bounces >= 0 ==> m.ball.bounces >= 0)
  {
  }

  /**
   * `move` returns True exactly when every wall contact found a bounce left;
   * then the ball is inside the field. When it returns False the position
   * is unchanged. Bounces never go negative and at most four are spent.
   */
  lemma MoveStepProperties(s: BallState, timestep: real)
    ensures var m := MoveStep(s, timestep);
      (m.ok ==> 0.0 <= m.ball.x <= ScreenWidth && 0.0 <= m.ball.y <= ScreenHeight) &&
      (!m.ok ==> m.ball.x == s.x && m.ball.y == s.y) &&
      (s.bounces >= 0 ==> m.ball.bounces >= 0) &&
      s.bounces - 4 <= m.ball.bounces <= s.bounces &&
      m.ball.r == s.r && m.ball.live == s.live && m.ball.kind == s.kind
  {
    var lt := timestep * 10.0;
    var a := Accelerate(s, lt);
    var b1 := Bounce(a, a.y + a.r >= ScreenHeight, true);
    BounceKeepsPosition(a, a.y + a.r >= ScreenHeight, true);
    var b2 := Bounce(b1.ball, b1.ball.y - b1.ball.r <= 0.0, true);
    BounceKeepsPosition(b1.ball, b1.ball.y - b1.ball.r <= 0.0, true);
    var b3 := Bounce(b2.ball, b2.ball.x + b2.ball.r >= ScreenWidth, false);
    BounceKeepsPosition(b2.ball, b2.ball.x + b2.ball.r >= ScreenWidth, false);
    var b4 := Bounce(b3.ball, b3.ball.x - b3.ball.r <= 0.0, false);
    BounceKeepsPosition(b3.ball, b3.ball.x - b3.ball.r <= 0.0, false);
    if b1.ok && b2.ok && b3.ok && b4.ok {
      var c := b4.ball;
      assert MoveStep(s, timestep).ball == Advance(c, lt);
      ClampInRange(0.0, ScreenWidth, c.x + c.vx * lt);
      ClampInRange(0.0, ScreenHeight, c.y - c.vy * lt);
    }
  }

  /** A ball touching the floor with no bounce left makes `move` return False. */
  lemma FloorWithoutBounceStops(s: BallState, timestep: real)
    requires s.bounces <= 0 && s.y + s.r >= ScreenHeight
    ensures !MoveStep(s, timestep).ok
  {
  }

  function Sq(v: real): real
  {
    v * v
  }

  /**
   * `hittest` against an object with centre (ox, oy) and radius `or`:
   * False for a dead ball, otherwise whether the centre distance is at most
   * the sum of the radii, stated on squares.
   */
  predicate Hits(s: BallState, ox: real, oy: real, or: real)
  {
    s.live > 0 && s.r + or >= 0.0 && Sq(ox - s.x) + Sq(oy - s.y) <= Sq(s.r + or)
  }

  /** The squared test agrees with comparing the square root `d` of the squared distance. */
  lemma HitsIsDistanceTest(s: BallState, ox: real, oy: real, or: real, d: real)
    requires d >= 0.0 && d * d == Sq(ox - s.x) + Sq(oy - s.y)
    ensures Hits(s, ox, oy, or) <==> s.live > 0 && d <= s.r + or
  {
    var R := s.r + or;
    if d <= R {
      MulMono(d, R);
    } else if R >= 0.0 {
      MulStrict(R, d);
    }
  }

  lemma MulMono(a: real, b: real)
    requires 0.0 <= a <= b
    ensures a * a <= b * b
  {
    assert a * a <= a * b;
    assert a * b <= b * b;
  }

  lemma MulStrict(a: real, b: real)
    requires 0.0 <= a < b
    ensures a * a < b * b
  {
    var e := b - a;
    assert e * e > 0.0;
    assert b * b == a * a + 2.0 * a * e + e * e;
    assert a * e >= 0.0;
  }

  /** Two live balls hit each other symmetrically. */
  lemma HitsSymmetric(a: BallState, b: BallState)
    requires a.live > 0 && b.live > 0
    ensures Hits(a, b.x, b.y, b.r) <==> Hits(b, a.x, a.y, a.r)
  {
    assert Sq(b.x - a.x) == Sq(a.x - b.x);
    assert Sq(b.y - a.y) == Sq(a.y - b.y);
  }

  /** A ball with `live <= 0` hits nothing. */
  lemma DeadBallMisses(s: BallState, ox: real, oy: real, or: real)
    requires s.live <= 0
    ensures !Hits(s, ox, oy, or)
  {
  }

  class Ball {
    var x: real
    var y: real
    const r: real
    var vx: real
    var vy: real
    const live: int
    var bounces: int
    const kind: BallKind
    /** The packed colour: drawn at random, fixed for a FlyingBall. */
    const color: int

    function State(): BallState
      reads this
    {
      BallState(x, y, r, vx, vy, live, bounces, kind)
    }

    /**
     * `Ball(screen, x, y)` and its subclasses; `drawn` is the packed colour
     * `colors.get()` picked, which a FlyingBall replaces by its own.
     */
    constructor (kind: BallKind, x: real, y: real, drawn: int)
      ensures State() == BallState(x, y, BallRadius, 0.0, 0.0, BallLive, StartBounces(kind), kind)
      ensures color == if kind == Flying then Colors.Value(Colors.SkyBlue) else drawn
    {
      this.x, this.y := x, y;
      r := BallRadius;
      vx, vy := 0.0, 0.0;
      live := BallLive;
      bounces := StartBounces(kind);
      this.kind := kind;
      color := if kind == Flying then Colors.Value(Colors.SkyBlue) else drawn;
    }

    /** `move`: one frame of flight, returning False when the ball dies at a wall. */
    method Move(timestep: real) returns (ok: bool)
      modifies this
      ensures Flight(ok, State()) == MoveStep(old(State()), timestep)
    {
      var lt := timestep * 10.0;
      if kind != Flying {
        vx := vx + GravityX * lt;
        vy := vy - GravityY * lt;
      }
      ok := Wall(y + r >= ScreenHeight, true);
      if ok {
        ok := Wall(y - r <= 0.0, true);
      }
      if ok {
        ok := Wall(x + r >= ScreenWidth, false);
      }
      if ok {
        ok := Wall(x - r <= 0.0, false);
      }
      if ok {
        var c := Advance(State(), lt);
        x, y := c.x, c.y;
      }
    }

    /** One of the four wall checks of `move`, the vertical velocity for the floor and the ceiling. */
    method Wall(contact: bool, vertical: bool) returns (ok: bool)
      modifies this
      ensures Flight(ok, State()) == Bounce(old(State()), contact, vertical)
    {
      if contact {
        if bounces <= 0 {
          return false;
        }
        bounces := bounces - 1;
        if vertical {
          vy := Reflect(vy, kind);
        } else {
          vx := Reflect(vx, kind);
        }
      }
      return true;
    }

    /** `hittest(obj)` for an object with centre (ox, oy) and radius `or`. */
    predicate HitTest(ox: real, oy: real, or: real)
      reads this
    {
      Hits(State(), ox, oy, or)
    }
  }

  /** What one frame of `BallHandler.move` does to each ball of the list. */
  datatype Fate = Stepped | Removed | Skipped

  function States(bs: seq<Ball>): (ss: seq<BallState>)
    reads bs
    ensures |ss| == |bs| && forall i :: 0 <= i < |bs| ==> ss[i] == bs[i].State()
  {
    if bs == [] then [] else [bs[0].State()] + States(bs[1..])
  }

  /** Whether each ball's `move` would return True, ball by ball. */
  function Oks(ss: seq<BallState>, timestep: real): (oks: seq<bool>)
    ensures |oks| == |ss|
    ensures forall i :: 0 <= i < |ss| ==> oks[i] == MoveStep(ss[i], timestep).ok
  {
    seq(|ss|, i requires 0 <= i < |ss| => MoveStep(ss[i], timestep).ok)
  }

  /**
   * The fates of the balls in one frame of `BallHandler.move`, given what
   * each ball's move returns. The loop removes a dying ball from the list
   * it is iterating, so the ball after it moves into the freed position and
   * the iterator passes over it: that ball is neither moved nor removed
   * this frame, whatever its own move would have returned.
   */
  function Fates(oks: seq<bool>): (p: seq<Fate>)
    ensures |p| == |oks|
    decreases |oks|
  {
    if oks == [] then []
    else if oks[0] then [Stepped] + Fates(oks[1..])
    else if |oks| == 1 then [Removed]
    else [Removed, Skipped] + Fates(oks[2..])
  }

  /** The fates of a list of balls in one frame of `BallHandler.move`. */
  function Plan(ss: seq<BallState>, timestep: real): (p: seq<Fate>)
    ensures |p| == |ss|
  {
    Fates(Oks(ss, timestep))
  }

  /** The elements whose fate is not Removed, in order. */
  function Kept<T>(s: seq<T>, p: seq<Fate>): (k: seq<T>)
    requires |s| == |p|
    ensures |k| <= |s|
    ensures forall x :: x in k ==> x in s
  {
    if s == [] then [] else (if p[0] == Removed then [] else [s[0]]) + Kept(s[1..], p[1..])
  }

  lemma {:induction false} KeptAppend<T>(s: seq<T>, p: seq<Fate>, x: T, f: Fate)
    requires |s| == |p|
    ensures Kept(s + [x], p + [f]) == Kept(s, p) + (if f == Removed then [] else [x])
    decreases |s|
  {
    if s != [] {
      assert (s + [x])[1..] == s[1..] + [x];
      assert (p + [f])[1..] == p[1..] + [f];
      KeptAppend(s[1..], p[1..], x, f);
    }
  }

  /** A ball that dies is always followed by a skipped one, unless it is the last. */
  lemma {:induction false} FatesSkipAfterRemoval(oks: seq<bool>, i: nat)
    requires i + 1 < |oks| && Fates(oks)[i] == Removed
    ensures Fates(oks)[i + 1] == Skipped
    decreases |oks|
  {
    if oks[0] {
      FatesSkipAfterRemoval(oks[1..], i - 1);
    } else if i >= 2 {
      FatesSkipAfterRemoval(oks[2..], i - 2);
    }
  }

  /** A ball that is not skipped is removed exactly when its move returns False. */
  lemma {:induction false} FatesRemoveDying(oks: seq<bool>, i: nat)
    requires i < |oks| && Fates(oks)[i] != Skipped
    ensures Fates(oks)[i] == Removed <==> !oks[i]
    decreases |oks|
  {
    if i > 0 {
      if oks[0] {
        FatesRemoveDying(oks[1..], i - 1);
      } else if i >= 2 {
        FatesRemoveDying(oks[2..], i - 2);
      }
    }
  }

  /** A ball is skipped only right after one that died. */
  lemma {:induction false} FatesSkipOnlyAfterRemoval(oks: seq<bool>, i: nat)
    requires i < |oks| && Fates(oks)[i] == Skipped
    ensures i > 0 && Fates(oks)[i - 1] == Removed
    decreases |oks|
  {
    if oks[0] {
      FatesSkipOnlyAfterRemoval(oks[1..], i - 1);
    } else if i >= 2 {
      FatesSkipOnlyAfterRemoval(oks[2..], i - 2);
    }
  }

  /** Skipped entries are exactly those right after a Removed one. */
  ghost predicate SkipsFollowRemovals(p: seq<Fate>)
  {
    && (|p| > 0 ==> p[0] != Skipped)
    && forall i :: 0 < i < |p| ==> (p[i] == Skipped <==> p[i - 1] == Removed)
  }

  /** The fates of a frame have that shape. */
  lemma FatesShape(oks: seq<bool>)
    ensures SkipsFollowRemovals(Fates(oks))
  {
    var p := Fates(oks);
    if |p| > 0 && p[0] == Skipped {
      FatesSkipOnlyAfterRemoval(oks, 0);
    }
    forall i | 0 < i < |p| ensures p[i] == Skipped <==> p[i - 1] == Removed {
      if p[i] == Skipped {
        FatesSkipOnlyAfterRemoval(oks, i);
      }
      if p[i - 1] == Removed {
        FatesSkipAfterRemoval(oks, i - 1);
      }
    }
  }

  /** Appending a shaped block after one that does not end in a removal keeps the shape. */
  lemma SkipsAppend(p: seq<Fate>, q: seq<Fate>)
    requires SkipsFollowRemovals(p) && SkipsFollowRemovals(q)
    requires p == [] || p[|p| - 1] != Removed
    ensures SkipsFollowRemovals(p + q)
  {
    var r := p + q;
    forall i | 0 < i < |r| ensures r[i] == Skipped <==> r[i - 1] == Removed {
      if i >= |p| + 1 {
        assert r[i] == q[i - |p|] && r[i - 1] == q[i - |p| - 1];
      }
    }
  }

  /** The same two facts about the balls themselves: removal follows from `Ball.move`'s own result. */
  lemma PlanRemovesDying(ss: seq<BallState>, timestep: real, i: nat)
    requires i < |ss| && Plan(ss, timestep)[i] != Skipped
    ensures Plan(ss, timestep)[i] == Removed <==> !MoveStep(ss[i], timestep).ok
    ensures Plan(ss, timestep)[i] == Removed && i + 1 < |ss| ==> Plan(ss, timestep)[i + 1] == Skipped
  {
    FatesRemoveDying(Oks(ss, timestep), i);
    if Plan(ss, timestep)[i] == Removed && i + 1 < |ss| {
      FatesSkipAfterRemoval(Oks(ss, timestep), i);
    }
  }

  /** The fates from position `j` on, unfolded once. */
  lemma FatesStep(oks: seq<bool>, j: nat)
    requires j < |oks|
    ensures oks[j] ==> Fates(oks[j..]) == [Stepped] + Fates(oks[j + 1..])
    ensures !oks[j] && j + 1 == |oks| ==> Fates(oks[j..]) == [Removed]
    ensures !oks[j] && j + 1 < |oks| ==> Fates(oks[j..]) == [Removed, Skipped] + Fates(oks[j + 2..])
  {
    assert oks[j..][1..] == oks[j + 1..];
    if j + 1 < |oks| {
      assert oks[j..][2..] == oks[j + 2..];
    }
  }

  /** The ball type `get_next_ball` returns: the queue head, or the head of a fresh batch when the queue is empty. */
  function NextKind(queue: seq<BallKind>, draw: seq<BallKind>): BallKind
    requires |draw| == RefillSize
  {
    if queue != [] then queue[0] else draw[0]
  }

  /** The queue `get_next_ball` leaves behind. */
  function NextQueue(queue: seq<BallKind>, draw: seq<BallKind>): seq<BallKind>
    requires |draw| == RefillSize
  {
    if queue != [] then queue[1..] else draw[1..]
  }

  class BallHandler {
    /** The live balls, in firing order. */
    var balls: seq<Ball>
    /** The ball types still to be fired, the next one first. */
    var queue: seq<BallKind>
    var shotCount: int

    /** No ball is listed twice: every ball is added once, right after it is created. */
    ghost predicate Valid()
      reads this
    {
      Distinct(balls)
    }

    constructor ()
      ensures balls == [] && queue == [] && shotCount == 0 && Valid()
    {
      balls, queue, shotCount := [], [], 0;
    }

    /** `add_ball`: appends a ball. */
    method AddBall(b: Ball)
      requires Valid() && b !in balls
      modifies this
      ensures balls == old(balls) + [b] && queue == old(queue) && shotCount == old(shotCount)
      ensures Valid()
    {
      balls := balls + [b];
    }

    /** `remove_ball`: `list.remove`, which raises ValueError for a ball not in the list. */
    method RemoveBall(b: Ball) returns (r: Result<()>)
      requires Valid()
      modifies this
      ensures r.Ok? <==> b in old(balls)
      ensures r.Err? ==> r.error == ValueError
      ensures balls == RemoveFirst(old(balls), b) && b !in balls
      ensures queue == old(queue) && shotCount == old(shotCount)
      ensures Valid()
    {
      RemoveFirstDistinct(balls, b);
      if b !in balls {
        return Err(ValueError);
      }
      balls := RemoveFirst(balls, b);
      return Ok(());
    }

    /**
     * `move`: moves every ball once and removes the ones whose move returns
     * False, from the list being iterated. The list keeps exactly the balls
     * `Plan` does not remove; moved and removed balls have taken their
     * step, and skipped balls are untouched.
     */
    method Move(timestep: real)
      requires Valid()
      modifies this, balls
      ensures Valid()
      ensures var p := Plan(old(States(balls)), timestep);
        balls == Kept(old(balls), p) &&
        forall k :: 0 <= k < |p| ==> old(balls)[k].State() == Effect(old(balls[k].State()), p[k], timestep)
      ensures queue == old(queue) && shotCount == old(shotCount)
    {
      balls := Sweep(balls, timestep);
    }

    /** `get_next_ball`: counts the shot, refills an empty queue and pops its head. */
    method GetNextBall(draw: seq<BallKind>) returns (kind: BallKind)
      requires |draw| == RefillSize
      modifies this
      ensures shotCount == old(shotCount) + 1 && balls == old(balls)
      ensures old(queue) != [] ==> kind == old(queue)[0] && queue == old(queue)[1..]
      ensures old(queue) == [] ==> kind == draw[0] && queue == draw[1..]
    {
      shotCount := shotCount + 1;
      if |queue| <= 0 {
        Refill(draw);
      }
      kind := queue[0];
      queue := queue[1..];
    }

    /** `refill`: appends the 15 ball types `choice` drew. */
    method Refill(draw: seq<BallKind>)
      requires |draw| == RefillSize
      modifies this
      ensures queue == old(queue) + draw && balls == old(balls) && shotCount == old(shotCount)
    {
      for i := 0 to RefillSize
        invariant queue == old(queue) + draw[..i] && balls == old(balls) && shotCount == old(shotCount)
      {
        queue := queue + [draw[i]];
      }
    }

    /** `get_queue().insert(0, kind)`: puts a ball type back at the head of the queue. */
    method InsertFront(kind: BallKind)
      modifies this
      ensures queue == [kind] + old(queue) && balls == old(balls) && shotCount == old(shotCount)
    {
      queue := [kind] + queue;
    }

    /** `hittest(obj)`: the first ball in list order that hits the object, or None. */
    method HitTest(ox: real, oy: real, or: real) returns (r: Option<Ball>)
      ensures r.None? <==> forall k :: 0 <= k < |balls| ==> !balls[k].HitTest(ox, oy, or)
      ensures r.Some? ==> exists i :: (0 <= i < |balls| && balls[i] == r.value && balls[i].HitTest(ox, oy, or) &&
        forall k :: 0 <= k < i ==> !balls[k].HitTest(ox, oy, or))
    {
      for i := 0 to |balls|
        invariant forall k :: 0 <= k < i ==> !balls[k].HitTest(ox, oy, or)
      {
        if balls[i].HitTest(ox, oy, or) {
          return Some(balls[i]);
        }
      }
      return None;
    }
  }

  /** A ball after one frame of `BallHandler.move`, given its fate. */
  function Effect(s: BallState, f: Fate, timestep: real): BallState
  {
    if f == Skipped then s else MoveStep(s, timestep).ball
  }

  /** The balls' states once the balls of `done` have been visited. */
  function Applied(ss: seq<BallState>, done: seq<Fate>, timestep: real): (r: seq<BallState>)
    requires |done| <= |ss|
    ensures |r| == |ss|
    ensures forall k :: 0 <= k < |done| ==> r[k] == Effect(ss[k], done[k], timestep)
    ensures forall k :: |done| <= k < |ss| ==> r[k] == ss[k]
  {
    seq(|ss|, k requires 0 <= k < |ss| => if k < |done| then Effect(ss[k], done[k], timestep) else ss[k])
  }

  /** The balls of `bs` are in the states `cur`. */
  ghost predicate StatesAre(bs: seq<Ball>, cur: seq<BallState>)
    reads bs
  {
    |bs| == |cur| && forall k :: 0 <= k < |bs| ==> bs[k].State() == cur[k]
  }

  /** Moves the ball at position `j` of a list without repetitions; the other balls keep their states. */
  method MoveListed(ghost bs: seq<Ball>, ghost cur: seq<BallState>, ghost j: nat, b: Ball, timestep: real)
    returns (ok: bool)
    requires StatesAre(bs, cur) && Distinct(bs) && j < |bs| && b == bs[j]
    modifies b
    ensures Flight(ok, b.State()) == MoveStep(cur[j], timestep)
    ensures StatesAre(bs, cur[j := b.State()])
  {
    ok := b.Move(timestep);
    forall k | 0 <= k < |bs| && k != j
      ensures bs[k].State() == cur[k]
    {
      assert bs[k] != bs[j];
      assert old(bs[k].State()) == cur[k];
    }
  }

  /** Visiting one more ball applies its fate, and the fate of the one after it when that ball dies. */
  lemma AppliedNext(ss: seq<BallState>, cur: seq<BallState>, done0: seq<Fate>, done: seq<Fate>, timestep: real)
    requires |done0| < |ss| && |done| <= |ss| && cur == Applied(ss, done0, timestep)
    requires done == done0 + [Stepped] || done == done0 + [Removed] || done == done0 + [Removed, Skipped]
    ensures Applied(ss, done, timestep) == cur[|done0| := MoveStep(ss[|done0|], timestep).ball]
  {
    var j := |done0|;
    var next := cur[j := MoveStep(ss[j], timestep).ball];
    var a := Applied(ss, done, timestep);
    forall k | 0 <= k < |ss|
      ensures a[k] == next[k]
    {
      if k < j {
        assert done[k] == done0[k];
      }
    }
  }

  /**
   * The loop of `BallHandler.move`, on the list it edits: every ball moves
   * once in list order, and a ball whose move returns False is removed
   * from the list being iterated, so the ball after it is passed over.
   */
  method Sweep(list0: seq<Ball>, timestep: real) returns (list: seq<Ball>)
    requires Distinct(list0)
    modifies list0
    ensures var p := Plan(old(States(list0)), timestep);
      && list == Kept(list0, p) && Distinct(list)
      && forall k :: 0 <= k < |p| ==> list0[k].State() == Effect(old(list0[k].State()), p[k], timestep)
  {
    list := list0;
    ghost var ss := States(list0);
    ghost var oks := Oks(ss, timestep);
    ghost var done: seq<Fate> := [];
    var i := 0;
    assert oks[..] == oks;
    while i < |list|
      invariant Sweeping(list0, ss, oks, done, list, i, timestep)
      decreases |list0| - |done|
    {
      list, done, i := BallTurn(list0, ss, oks, done, list, i, timestep);
    }
    SweepEnd(list0, ss, oks, done, list, i, timestep);
  }

  /** The state of `BallHandler.move`'s loop once the balls of `done` have been visited. */
  ghost predicate Sweeping(orig: seq<Ball>, ss: seq<BallState>, oks: seq<bool>, done: seq<Fate>, list: seq<Ball>, i: int,
                           timestep: real)
    reads orig
  {
    && SweepInv(orig, oks, done, list, i) && Distinct(orig)
    && oks == Oks(ss, timestep) && |ss| == |orig|
    && StatesAre(orig, Applied(ss, done, timestep))
  }

  /** The turn of the ball at the iterator: it moves, and leaves the list when its move returns False. */
  method BallTurn(ghost orig: seq<Ball>, ghost ss: seq<BallState>, ghost oks: seq<bool>, ghost done: seq<Fate>,
                  list: seq<Ball>, i: int, timestep: real)
    returns (list': seq<Ball>, ghost done': seq<Fate>, i': int)
    requires Sweeping(orig, ss, oks, done, list, i, timestep) && 0 <= i < |list|
    modifies list[i]
    ensures Sweeping(orig, ss, oks, done', list', i', timestep) && |done| < |done'|
  {
    ghost var cur := Applied(ss, done, timestep);
    ListedAt(orig, done, list, i);
    var ok := MoveListed(orig, cur, |done|, list[i], timestep);
    list' := list;
    if !ok {
      list' := list[..i] + list[i + 1..];
    }
    done' := SweepNext(orig, oks, done, list, i, ok);
    AppliedNext(ss, cur, done, done', timestep);
    i' := i + 1;
  }

  /** Once the iterator has left the list, every ball met the fate `Plan` gives it. */
  lemma SweepEnd(orig: seq<Ball>, ss: seq<BallState>, oks: seq<bool>, done: seq<Fate>, list: seq<Ball>, i: int, timestep: real)
    requires Sweeping(orig, ss, oks, done, list, i, timestep) && !(i < |list|)
    ensures var p := Plan(ss, timestep);
      && list == Kept(orig, p) && Distinct(list)
      && forall k :: 0 <= k < |p| ==> orig[k].State() == Effect(ss[k], p[k], timestep)
  {
    SweepDone(orig, oks, done, list, i);
  }

  /**
   * The list bookkeeping of `BallHandler.move` after the fates `done` of the
   * first balls are settled: the fates start with `done`, the list holds the
   * kept balls followed by the unvisited ones, and the iterator `i` points
   * at the first unvisited ball.
   */
  ghost predicate SweepInv<T>(orig: seq<T>, oks: seq<bool>, done: seq<Fate>, balls: seq<T>, i: int)
  {
    && |oks| == |orig| && |done| <= |orig|
    && Fates(oks) == done + Fates(oks[|done|..])
    && Listed(orig, done, balls, i)
  }

  /** The list and the iterator once the balls of `done` have been visited. */
  ghost predicate Listed<T>(orig: seq<T>, done: seq<Fate>, balls: seq<T>, i: int)
  {
    && |done| <= |orig|
    && balls == Kept(orig[..|done|], done) + orig[|done|..]
    && (|done| < |orig| ==> i == |Kept(orig[..|done|], done)|)
    && (|done| == |orig| ==> i >= |balls|)
  }

  /** While the iterator is inside the list, it points at the first unvisited ball. */
  lemma ListedAt<T>(orig: seq<T>, done: seq<Fate>, balls: seq<T>, i: int)
    requires Listed(orig, done, balls, i) && 0 <= i < |balls|
    ensures |done| < |orig| && balls[i] == orig[|done|]
  {
    if |done| == |orig| {
      assert false;
    }
  }

  /** One iteration settles the fate of the ball at the iterator, and of the one after it when that ball dies. */
  lemma SweepNext<T>(orig: seq<T>, oks: seq<bool>, done: seq<Fate>, balls: seq<T>, i: int, ok: bool)
    returns (done': seq<Fate>)
    requires SweepInv(orig, oks, done, balls, i) && 0 <= i < |balls|
    requires |done| < |orig| && ok == oks[|done|]
    ensures SweepInv(orig, oks, done', if ok then balls else balls[..i] + balls[i + 1..], i + 1)
    ensures ok ==> done' == done + [Stepped]
    ensures !ok && |done| + 1 == |orig| ==> done' == done + [Removed]
    ensures !ok && |done| + 1 < |orig| ==> done' == done + [Removed, Skipped]
  {
    var j := |done|;
    FatesStep(oks, j);
    if ok {
      done' := done + [Stepped];
      ListedStepped(orig, done, balls, i);
      assert Fates(oks) == done' + Fates(oks[j + 1..]);
    } else if j + 1 < |orig| {
      done' := done + [Removed, Skipped];
      ListedRemovedPair(orig, done, balls, i);
      assert Fates(oks) == done' + Fates(oks[j + 2..]);
    } else {
      done' := done + [Removed];
      ListedRemovedLast(orig, done, balls, i);
      assert oks[j + 1..] == [];
    }
  }

  lemma ListedStepped<T>(orig: seq<T>, done: seq<Fate>, balls: seq<T>, i: int)
    requires Listed(orig, done, balls, i) && |done| < |orig|
    ensures Listed(orig, done + [Stepped], balls, i + 1)
  {
    var j := |done|;
    var kept := Kept(orig[..j], done);
    KeptAppend(orig[..j], done, orig[j], Stepped);
    assert orig[..j] + [orig[j]] == orig[..j + 1];
    assert Kept(orig[..j + 1], done + [Stepped]) == kept + [orig[j]];
    assert orig[j..] == [orig[j]] + orig[j + 1..] by {
      assert orig[j..][0] == orig[j] && orig[j..][1..] == orig[j + 1..];
    }
    assert balls == kept + [orig[j]] + orig[j + 1..];
  }

  lemma ListedRemovedPair<T>(orig: seq<T>, done: seq<Fate>, balls: seq<T>, i: int)
    requires Listed(orig, done, balls, i) && |done| + 1 < |orig|
    ensures Listed(orig, done + [Removed, Skipped], balls[..i] + balls[i + 1..], i + 1)
  {
    var j := |done|;
    var kept := Kept(orig[..j], done);
    KeptAppend(orig[..j], done, orig[j], Removed);
    KeptAppend(orig[..j + 1], done + [Removed], orig[j + 1], Skipped);
    assert orig[..j] + [orig[j]] == orig[..j + 1];
    assert orig[..j + 1] + [orig[j + 1]] == orig[..j + 2];
    assert done + [Removed] + [Skipped] == done + [Removed, Skipped];
    assert balls[..i] == kept;
    assert balls[i + 1..] == orig[j + 1..];
    assert orig[j + 1..] == [orig[j + 1]] + orig[j + 2..];
  }

  lemma ListedRemovedLast<T>(orig: seq<T>, done: seq<Fate>, balls: seq<T>, i: int)
    requires Listed(orig, done, balls, i) && |done| + 1 == |orig|
    ensures Listed(orig, done + [Removed], balls[..i] + balls[i + 1..], i + 1)
  {
    var j := |done|;
    KeptAppend(orig[..j], done, orig[j], Removed);
    assert orig[..j] + [orig[j]] == orig[..j + 1] == orig;
    assert balls[..i] == Kept(orig[..j], done) && balls[i + 1..] == [];
  }

  /** When the loop ends every ball has its fate, and the list is the kept balls. */
  lemma SweepDone<T>(orig: seq<T>, oks: seq<bool>, done: seq<Fate>, balls: seq<T>, i: int)
    requires SweepInv(orig, oks, done, balls, i) && !(i < |balls|) && Distinct(orig)
    ensures done == Fates(oks) && balls == Kept(orig, done) && Distinct(balls)
  {
    if |done| < |orig| {
      assert false;
    }
    assert orig[..|done|] == orig;
    assert oks[|done|..] == [];
    DistinctKept(orig, done);
  }

  /** Once the iterator has left the list, every element has its fate and the list is the kept elements. */
  lemma ListedEnd<T>(orig: seq<T>, done: seq<Fate>, list: seq<T>, i: int)
    requires Listed(orig, done, list, i) && !(i < |list|)
    ensures |done| == |orig| && list == Kept(orig, done)
  {
    if |done| < |orig| {
      assert false;
    }
    assert orig[..|done|] == orig;
  }

  lemma {:induction false} DistinctKept<T>(s: seq<T>, p: seq<Fate>)
    requires |s| == |p| && Distinct(s)
    ensures Distinct(Kept(s, p))
  {
    if s != [] {
      DistinctKept(s[1..], p[1..]);
      assert s[0] !in s[1..];
    }
  }
}
