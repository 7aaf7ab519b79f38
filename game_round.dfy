/**
 * The state of one cannon game (laba6/deob.py): `Bombs`, which drops a
 * FallingTarget, and `GameState` with the score, the targets, the shared
 * BallHandler and the three guns, together with the rules the main loop
 * applies to them each frame: which gun is active, when the bomb drops, how
 * a ball that hits another gun hands control to it, and how a ball that
 * hits a target scores.
 *
 * The random draws (`choice` and `rnd`), the frame time and the cosine and
 * sine of the wall-clock angle a CircularTarget reads are parameters.
 */
module GameRound {
  import opened Wrappers
  import Colors
  import opened Projectiles
  import opened Launchers
  import opened Targets
  import opened PingPong

  /** Where the bomb hangs: SCREEN_SIZE[0] - 400 and 10. */
  const BombX: int := 400
  const BombY: int := 10

  /** The seconds the bomb waits between two drops. */
  const DropInterval: real := 5.0

  /** The `rnd` draws of a target's constructor: its position, its radius and a MovingTarget's far-end offset. */
  datatype Spawn = Spawn(x: int, y: int, size: int, dx: int, dy: int)

  /** The draws lie in the ranges `rnd` draws them from. */
  predicate Drawable(s: Spawn, d: Difficulty)
  {
    InSpawnArea(s.x, s.y) && d.sizeLow <= s.size <= d.sizeHigh && -40 <= s.dx <= 40 && -40 <= s.dy <= 40
  }

  /** Creates one target per kind, in order; nothing that exists already changes. */
  method MakeTargets(d: Difficulty, kinds: seq<TargetKind>, spawns: seq<Spawn>) returns (ts: seq<Target>)
    requires |spawns| == |kinds| && forall k :: 0 <= k < |spawns| ==> Drawable(spawns[k], d)
    ensures |ts| == |kinds| && Distinct(ts)
    ensures forall k :: 0 <= k < |ts| ==> fresh(ts[k]) && ts[k].kind == kinds[k]
    ensures forall k :: 0 <= k < |ts| ==> (ts[k].x, ts[k].y) == (spawns[k].x as real, spawns[k].y as real)
  {
    ts := [];
    for k := 0 to |kinds|
      invariant |ts| == k && Distinct(ts)
      invariant forall j :: 0 <= j < k ==> fresh(ts[j]) && ts[j].kind == kinds[j]
      invariant forall j :: 0 <= j < k ==> (ts[j].x, ts[j].y) == (spawns[j].x as real, spawns[j].y as real)
    {
      var s := spawns[k];
      var t := new Target(kinds[k], d, s.x, s.y, s.size, s.dx, s.dy);
      ts := ts + [t];
    }
  }

  class Bomb {
    const x: int
    const y: int
    const color: int

    /** `Bombs(screen, x, y, state)` as the game creates it. */
    constructor ()
      ensures (x, y) == (BombX, BombY) && color == Colors.Value(Colors.Black)
    {
      x, y := BombX, BombY;
      color := Colors.Value(Colors.Black);
    }

    /**
     * `drop`: a new FallingTarget of the game's difficulty, moved to just
     * under the bomb, joins the end of the game's targets. Its origin stays
     * where its constructor drew it.
     */
    method Drop(state: GameState, spawn: Spawn)
      requires state.Valid() && Drawable(spawn, state.difficulty)
      modifies state
      ensures state.Valid()
      ensures |state.targets| == |old(state.targets)| + 1 && state.targets[..|old(state.targets)|] == old(state.targets)
      ensures var t := state.targets[|old(state.targets)|];
        && fresh(t) && t.kind == Falling
        && (t.x, t.y) == ((x + 20) as real, (y + 35) as real)
        && (t.originX, t.originY) == (spawn.x as real, spawn.y as real)
        && t.r == FallingRadius && t.vy == FallingSpeed
      ensures state.points == old(state.points) && state.activeGun == old(state.activeGun)
    {
      var t := new Target(Falling, state.difficulty, spawn.x, spawn.y, spawn.size, spawn.dx, spawn.dy);
      t.x := (x + 20) as real;
      t.y := (y + 35) as real;
      state.targets := state.targets + [t];
    }
  }

  /** The bomb timer after a frame: it restarts on a drop, which happens once five seconds have gathered. */
  function NextDrop(lastdrop: real, timestep: real): real
  {
    if lastdrop >= DropInterval then 0.0 else lastdrop + timestep
  }

  /**
   * With frames of at most `longest` seconds the timer stays below five
   * seconds plus one frame, and it only grows between drops.
   */
  lemma DropTimerBounded(lastdrop: real, timestep: real, longest: real)
    requires 0.0 <= lastdrop < DropInterval + longest && 0.0 <= timestep <= longest
    ensures 0.0 <= NextDrop(lastdrop, timestep) < DropInterval + longest
    ensures lastdrop >= DropInterval ==> NextDrop(lastdrop, timestep) == 0.0
    ensures lastdrop < DropInterval ==> NextDrop(lastdrop, timestep) >= lastdrop
  {
  }

  /** The timer after a run of frames without a drop in between. */
  function TimerAfter(lastdrop: real, steps: seq<real>): real
    decreases |steps|
  {
    if steps == [] then lastdrop else TimerAfter(NextDrop(lastdrop, steps[0]), steps[1..])
  }

  /**
   * Drops are spaced: starting from a drop, a timer that has not reached five
   * seconds yet is the sum of the frame times, so with frames of at most
   * `longest` seconds at least 5 / longest frames pass before the next drop.
   */
  lemma {:induction false} DropsAreSpaced(start: real, steps: seq<real>, longest: real)
    requires 0.0 <= start && forall k :: 0 <= k < |steps| ==> 0.0 <= steps[k] <= longest
    requires forall k :: 0 <= k <= |steps| ==> TimerAfter(start, steps[..k]) < DropInterval
    ensures TimerAfter(start, steps) <= start + |steps| as real * longest
  {
    if steps != [] {
      var n := |steps|;
      var s0 := steps[..n - 1];
      forall k | 0 <= k <= n - 1 ensures TimerAfter(start, s0[..k]) < DropInterval {
        assert s0[..k] == steps[..k];
      }
      DropsAreSpaced(start, s0, longest);
      var last := steps[n - 1];
      assert steps == s0 + [last];
      TimerAfterAppend(start, s0, last);
      var before := TimerAfter(start, s0);
      assert before < DropInterval by {
        assert steps[..n - 1] == s0;
      }
      assert TimerAfter(start, steps) == before + last;
      assert (n - 1) as real * longest + longest == n as real * longest;
    }
  }

  lemma {:induction false} TimerAfterAppend(start: real, steps: seq<real>, last: real)
    ensures TimerAfter(start, steps + [last]) == NextDrop(TimerAfter(start, steps), last)
    decreases |steps|
  {
    if steps != [] {
      assert (steps + [last])[1..] == steps[1..] + [last];
      TimerAfterAppend(NextDrop(start, steps[0]), steps[1..], last);
    }
  }

  /** What a gun's frame changes or keeps. */
  datatype GunSnap = GunSnap(pos: Track, power: real, on: bool, active: bool, angle: real, color: int)

  ghost function Snap(g: Gun): GunSnap
    reads g
  {
    GunSnap(g.Position(), g.f2Power, g.f2On, g.active, g.angle, g.color)
  }

  /** The guns of `gs` are as `cur` says. */
  ghost predicate SnapsAre(gs: seq<Gun>, cur: seq<GunSnap>)
    reads gs
  {
    |gs| == |cur| && forall k :: 0 <= k < |gs| ==> Snap(gs[k]) == cur[k]
  }

  ghost function Snaps(gs: seq<Gun>): (r: seq<GunSnap>)
    reads gs
    ensures SnapsAre(gs, r)
  {
    seq(|gs|, k requires 0 <= k < |gs| reads gs => Snap(gs[k]))
  }

  /** The guns of `gs` after each has moved once from `before`. */
  function StepGuns(gs: seq<Gun>, before: seq<GunSnap>, timestep: real): (r: seq<GunSnap>)
    requires |before| == |gs|
    ensures |r| == |gs|
    ensures forall k :: 0 <= k < |gs| ==> r[k] == before[k].(pos := GunStep(gs[k].kind, before[k].pos, timestep))
  {
    seq(|gs|, k requires 0 <= k < |gs| => before[k].(pos := GunStep(gs[k].kind, before[k].pos, timestep)))
  }

  /** Taking one more entry from the updated list. */
  lemma SpliceNext<S>(a: seq<S>, b: seq<S>, j: nat)
    requires |a| == |b| && j < |a|
    ensures (a[..j] + b[j..])[j := a[j]] == a[..j + 1] + b[j + 1..]
  {
  }

  /** A gun's position after its `move`. */
  function GunStep(kind: GunKind, p: Track, timestep: real): Track
  {
    if kind == Moveable then Glide(p, timestep) else p
  }

  /** Moves the gun at position `j` of a list without repetitions; the other guns stay as they are. */
  method MoveGunListed(ghost gs: seq<Gun>, ghost cur: seq<GunSnap>, ghost j: nat, g: Gun, timestep: real)
    requires SnapsAre(gs, cur) && Distinct(gs) && j < |gs| && g == gs[j]
    modifies g
    ensures SnapsAre(gs, cur[j := cur[j].(pos := GunStep(g.kind, cur[j].pos, timestep))])
  {
    g.Move(timestep);
    forall k | 0 <= k < |gs| && k != j
      ensures Snap(gs[k]) == cur[k]
    {
      assert gs[k] != gs[j];
      assert old(Snap(gs[k])) == cur[k];
    }
  }

  /** The kinds that balls handed back put at the head of the queue, the last one first. */
  function Returned(rs: seq<Ball>): (q: seq<BallKind>)
    ensures |q| == |rs|
  {
    if rs == [] then [] else [rs[|rs| - 1].kind] + Returned(rs[..|rs| - 1])
  }

  lemma ReturnedAppend(rs: seq<Ball>, b: Ball)
    ensures Returned(rs + [b]) == [b.kind] + Returned(rs)
  {
    assert (rs + [b])[..|rs|] == rs;
  }

  /** The list `s` once the entries of `rs` have been taken out of it one after the other by `list.remove`. */
  function Without<T(==)>(s: seq<T>, rs: seq<T>): (r: seq<T>)
    ensures forall y :: y in r ==> y in s
    decreases |rs|
  {
    if rs == [] then s else RemoveFirst(Without(s, rs[..|rs| - 1]), rs[|rs| - 1])
  }

  /** `b` is the first ball of `bs` that hits the circle at (x, y) of radius r: the ball `BallHandler.hittest` returns. */
  ghost predicate FirstHit(bs: seq<Ball>, b: Ball, x: real, y: real, r: real)
    reads set c | c in bs
  {
    exists i :: 0 <= i < |bs| && bs[i] == b && bs[i].HitTest(x, y, r) && forall k :: 0 <= k < i ==> !bs[k].HitTest(x, y, r)
  }

  /** No ball of `bs` hits the circle at (x, y) of radius r: `BallHandler.hittest` returns None. */
  ghost predicate NoHit(bs: seq<Ball>, x: real, y: real, r: real)
    reads set c | c in bs
  {
    forall k :: 0 <= k < |bs| ==> !bs[k].HitTest(x, y, r)
  }

  /**
   * The balls `removed` have left the live list `balls0` one after the
   * other, and their types went back to the head of the queue.
   */
  ghost predicate Handed(balls0: seq<Ball>, queue0: seq<BallKind>, balls: seq<Ball>, queue: seq<BallKind>, removed: seq<Ball>)
  {
    && balls == Without(balls0, removed)
    && |balls| == |balls0| - |removed|
    && (forall b :: b in balls ==> b in balls0)
    && (forall k :: 0 <= k < |removed| ==> removed[k] in balls0 && removed[k] !in balls)
    && queue == Returned(removed) + queue0
  }

  lemma HandedNext(balls0: seq<Ball>, queue0: seq<BallKind>, balls: seq<Ball>, queue: seq<BallKind>, removed: seq<Ball>,
                   b: Ball, balls': seq<Ball>, queue': seq<BallKind>)
    requires Handed(balls0, queue0, balls, queue, removed)
    requires b in balls && balls' == RemoveFirst(balls, b) && b !in balls' && queue' == [b.kind] + queue
    ensures Handed(balls0, queue0, balls', queue', removed + [b])
  {
    assert (removed + [b])[..|removed|] == removed;
    ReturnedAppend(removed, b);
  }

  /** The gun in control once the first `k` hand-overs of the frame have happened. */
  function ActiveAfter(gs: seq<Gun>, active0: Gun, takers: seq<nat>, k: nat): Gun
    requires k <= |takers| && (k > 0 ==> takers[k - 1] < |gs|)
  {
    if k == 0 then active0 else gs[takers[k - 1]]
  }

  /** How many hand-overs came before the turn of gun `i`: the takers listed before it. */
  function Before(takers: seq<nat>, i: nat): (c: nat)
    ensures c <= |takers|
  {
    if takers == [] then 0 else Before(takers[..|takers| - 1], i) + (if takers[|takers| - 1] < i then 1 else 0)
  }

  lemma BeforeAppend(takers: seq<nat>, t: nat, i: nat)
    ensures Before(takers + [t], i) == Before(takers, i) + (if t < i then 1 else 0)
  {
    assert (takers + [t])[..|takers|] == takers;
  }

  lemma {:induction false} BeforeAll(takers: seq<nat>, i: nat)
    requires forall k :: 0 <= k < |takers| ==> takers[k] < i
    ensures Before(takers, i) == |takers|
  {
    if takers != [] {
      BeforeAll(takers[..|takers| - 1], i);
    }
  }

  /**
   * Gun `i`, which did not take control, either had control at its turn
   * or stood at (x, y) where no ball still live at its turn hit it.
   */
  ghost predicate Declined(gs: seq<Gun>, active0: Gun, balls0: seq<Ball>, removed: seq<Ball>, takers: seq<nat>, i: nat, x: real, y: real)
    reads set b | b in balls0
  {
    var c := Before(takers, i);
    && i < |gs| && c <= |removed| && (c > 0 ==> takers[c - 1] < |gs|)
    && (gs[i] == ActiveAfter(gs, active0, takers, c) || NoHit(Without(balls0, removed[..c]), x, y, GunRadius))
  }

  /**
   * The `k`-th hand-over: gun `takers[k]`, standing at `moved`, did not
   * have control, and `removed[k]` is the first ball still live at its
   * turn that hit it.
   */
  ghost predicate Handover(gs: seq<Gun>, moved: seq<GunSnap>, balls0: seq<Ball>, active0: Gun, removed: seq<Ball>, takers: seq<nat>, k: nat)
    reads set b | b in balls0
  {
    && k < |removed| && k < |takers| && takers[k] < |gs| && takers[k] < |moved| && (k > 0 ==> takers[k - 1] < |gs|)
    && gs[takers[k]] != ActiveAfter(gs, active0, takers, k)
    && FirstHit(Without(balls0, removed[..k]), removed[k], moved[takers[k]].pos.x, moved[takers[k]].pos.y, GunRadius)
  }

  /**
   * The hand-overs of the first `j` turns of the control swap, with the
   * guns at `moved`: the takers are in list order, each took control as
   * `Handover` says, and every other gun among the first `j` declined.
   */
  ghost predicate Took(gs: seq<Gun>, moved: seq<GunSnap>, balls0: seq<Ball>, active0: Gun, removed: seq<Ball>, takers: seq<nat>, j: nat)
    reads set b | b in balls0
  {
    && |takers| == |removed| && j <= |gs| == |moved|
    && (forall k :: 0 <= k < |takers| ==> takers[k] < j)
    && (forall p, q :: 0 <= p < q < |takers| ==> takers[p] < takers[q])
    && (forall k :: 0 <= k < |removed| ==> Handover(gs, moved, balls0, active0, removed, takers, k))
    && (forall i :: 0 <= i < j && i !in takers ==> Declined(gs, active0, balls0, removed, takers, i, moved[i].pos.x, moved[i].pos.y))
  }

  /** Gun `j` takes control with the first live ball that hits it. */
  lemma TookNext(gs: seq<Gun>, moved: seq<GunSnap>, balls0: seq<Ball>, active0: Gun, removed: seq<Ball>, takers: seq<nat>, j: nat, b: Ball)
    requires Took(gs, moved, balls0, active0, removed, takers, j) && j < |gs|
    requires gs[j] != ActiveAfter(gs, active0, takers, |takers|)
    requires FirstHit(Without(balls0, removed), b, moved[j].pos.x, moved[j].pos.y, GunRadius)
    ensures Took(gs, moved, balls0, active0, removed + [b], takers + [j], j + 1)
  {
    HandoversNext(gs, moved, balls0, active0, removed, takers, j, b);
    DeclinesNext(gs, moved, balls0, active0, removed, takers, j, b);
  }

  lemma HandoversNext(gs: seq<Gun>, moved: seq<GunSnap>, balls0: seq<Ball>, active0: Gun, removed: seq<Ball>, takers: seq<nat>, j: nat, b: Ball)
    requires Took(gs, moved, balls0, active0, removed, takers, j) && j < |gs|
    requires gs[j] != ActiveAfter(gs, active0, takers, |takers|)
    requires FirstHit(Without(balls0, removed), b, moved[j].pos.x, moved[j].pos.y, GunRadius)
    ensures forall k :: 0 <= k < |removed| + 1 ==> Handover(gs, moved, balls0, active0, removed + [b], takers + [j], k)
  {
    var removed', takers' := removed + [b], takers + [j];
    forall k | 0 <= k < |removed'|
      ensures Handover(gs, moved, balls0, active0, removed', takers', k)
    {
      assert removed'[..k] == removed[..k];
      if k < |removed| {
        assert Handover(gs, moved, balls0, active0, removed, takers, k);
      }
    }
  }

  lemma DeclinesNext(gs: seq<Gun>, moved: seq<GunSnap>, balls0: seq<Ball>, active0: Gun, removed: seq<Ball>, takers: seq<nat>, j: nat, b: Ball)
    requires Took(gs, moved, balls0, active0, removed, takers, j) && j < |gs|
    ensures forall i :: 0 <= i < j + 1 && i !in takers + [j] ==>
              Declined(gs, active0, balls0, removed + [b], takers + [j], i, moved[i].pos.x, moved[i].pos.y)
  {
    var removed', takers' := removed + [b], takers + [j];
    forall i | 0 <= i < j + 1 && i !in takers'
      ensures Declined(gs, active0, balls0, removed', takers', i, moved[i].pos.x, moved[i].pos.y)
    {
      BeforeAppend(takers, j, i);
      var c := Before(takers, i);
      assert removed'[..c] == removed[..c];
      assert Declined(gs, active0, balls0, removed, takers, i, moved[i].pos.x, moved[i].pos.y);
    }
  }

  /** Gun `j` has control already, or no live ball hits it: nothing is handed over. */
  lemma TookPass(gs: seq<Gun>, moved: seq<GunSnap>, balls0: seq<Ball>, active0: Gun, removed: seq<Ball>, takers: seq<nat>, j: nat)
    requires Took(gs, moved, balls0, active0, removed, takers, j) && j < |gs|
    requires gs[j] == ActiveAfter(gs, active0, takers, |takers|) ||
             NoHit(Without(balls0, removed), moved[j].pos.x, moved[j].pos.y, GunRadius)
    ensures Took(gs, moved, balls0, active0, removed, takers, j + 1)
  {
    BeforeAll(takers, j);
    assert removed[..|removed|] == removed;
    assert Declined(gs, active0, balls0, removed, takers, j, moved[j].pos.x, moved[j].pos.y);
  }

  /** The states of a list of targets. */
  ghost function TargetStates(ts: seq<Target>): (ss: seq<TargetState>)
    reads ts
    ensures |ss| == |ts| && forall k :: 0 <= k < |ts| ==> ss[k] == ts[k].State()
  {
    seq(|ts|, k requires 0 <= k < |ts| reads ts => ts[k].State())
  }

  /** The targets of `ts` are in the states `cur`. */
  ghost predicate TargetStatesAre(ts: seq<Target>, cur: seq<TargetState>)
    reads ts
  {
    |ts| == |cur| && forall k :: 0 <= k < |ts| ==> ts[k].State() == cur[k]
  }

  /** The state each target of `ts` would take from `before` by its own step. */
  function StepAll(ts: seq<Target>, before: seq<TargetState>, timestep: real, c: real, s: real): (r: seq<TargetState>)
    requires |before| == |ts|
    ensures |r| == |ts|
    ensures forall k :: 0 <= k < |ts| ==> r[k] == TargetStep(ts[k].kind, ts[k].originX, ts[k].originY, before[k], timestep, c, s)
  {
    seq(|ts|, k requires 0 <= k < |ts| => TargetStep(ts[k].kind, ts[k].originX, ts[k].originY, before[k], timestep, c, s))
  }

  /** The states once the entries of `done` have been visited: a skipped entry keeps its state, a visited one takes its step. */
  function Visited<S>(before: seq<S>, after: seq<S>, done: seq<Fate>): (r: seq<S>)
    requires |before| == |after| && |done| <= |before|
    ensures |r| == |before|
    ensures forall k :: 0 <= k < |done| ==> r[k] == if done[k] == Skipped then before[k] else after[k]
    ensures forall k :: |done| <= k < |before| ==> r[k] == before[k]
  {
    seq(|before|, k requires 0 <= k < |before| => if k < |done| && done[k] != Skipped then after[k] else before[k])
  }

  /** Visiting one more entry gives it its step, and the one after it keeps its state when it is skipped. */
  lemma VisitedNext<S>(before: seq<S>, after: seq<S>, cur: seq<S>, done0: seq<Fate>, done: seq<Fate>)
    requires |before| == |after| && |done0| < |before| && |done| <= |before| && cur == Visited(before, after, done0)
    requires done == done0 + [Stepped] || done == done0 + [Removed] || done == done0 + [Removed, Skipped]
    ensures Visited(before, after, done) == cur[|done0| := after[|done0|]]
  {
    var j := |done0|;
    var next := cur[j := after[j]];
    var v := Visited(before, after, done);
    forall k | 0 <= k < |before|
      ensures v[k] == next[k]
    {
      if k < j {
        assert done[k] == done0[k];
      }
    }
  }

  /** Moves the target at position `j` of a list without repetitions; the other targets keep their states. */
  method MoveTargetListed(ghost ts: seq<Target>, ghost cur: seq<TargetState>, ghost j: nat, t: Target,
                          timestep: real, c: real, s: real)
    requires TargetStatesAre(ts, cur) && Distinct(ts) && j < |ts| && t == ts[j]
    modifies t
    ensures TargetStatesAre(ts, cur[j := TargetStep(t.kind, t.originX, t.originY, cur[j], timestep, c, s)])
  {
    t.Move(timestep, c, s);
    forall k | 0 <= k < |ts| && k != j
      ensures ts[k].State() == cur[k]
    {
      assert ts[k] != ts[j];
      assert old(ts[k].State()) == cur[k];
    }
  }

  /** A new gun of the given kind and far-end draws, moved to (nx, ny) by `update_position`. */
  method PlacedGun(kind: GunKind, h: BallHandler, dx: int, dy: int, nx: real, ny: real) returns (g: Gun)
    requires -40 <= dx <= 40 && -40 <= dy <= 40
    ensures fresh(g) && g.kind == kind && g.handler == h
    ensures !g.active && !g.f2On && g.f2Power == IdlePower
    ensures (g.x, g.y) == (nx, ny) && (kind == Moveable ==> OnPath(g.Position()))
  {
    g := new Gun(kind, h, dx, dy);
    RelocateOnPath(g.Position(), nx, ny);
    g.UpdatePosition(nx, ny);
  }

  class GameState {
    var points: int
    var targets: seq<Target>
    /** The BallHandler the guns share. */
    const handler: BallHandler
    const bomb: Bomb
    var activeGun: Gun
    /** The two other guns, then the gun that is active at the start. */
    const guns: seq<Gun>
    const difficulty: Difficulty

    /** The lists hold no object twice, the active gun is one of the guns, and every gun fires into the game's handler. */
    ghost predicate Valid()
      reads this, handler
    {
      && handler.Valid()
      && Distinct(targets) && Distinct(guns)
      && activeGun in guns
      && forall g :: g in guns ==> g.handler == handler
    }

    /**
     * `GameState(screen, difficulty)`: no points, no targets, an empty
     * BallHandler, the bomb, and three guns sharing the handler. `kinds`
     * are the `choice`s of their types and `offsets` the far-end draws of a
     * MoveableGun, both in list order with the active gun last; `places` are
     * the positions the two other guns are moved to.
     */
    constructor (difficulty: Difficulty, kinds: seq<GunKind>, offsets: seq<(int, int)>, places: seq<(real, real)>)
      requires |kinds| == 3 && |offsets| == 3 && |places| == 2
      requires forall k :: 0 <= k < 3 ==> -40 <= offsets[k].0 <= 40 && -40 <= offsets[k].1 <= 40
      ensures Valid() && this.difficulty == difficulty
      ensures points == 0 && targets == []
      ensures fresh(handler) && handler.balls == [] && handler.queue == [] && handler.shotCount == 0
      ensures (bomb.x, bomb.y) == (BombX, BombY)
      ensures |guns| == 3 && activeGun == guns[2]
      ensures forall k :: 0 <= k < 3 ==> fresh(guns[k]) && guns[k].kind == kinds[k]
      ensures forall k :: 0 <= k < 3 ==> !guns[k].active && !guns[k].f2On && guns[k].f2Power == IdlePower
      ensures forall k :: 0 <= k < 2 ==> (guns[k].x, guns[k].y) == places[k]
      ensures (guns[2].x, guns[2].y) == (StartX, StartY)
      ensures forall k :: 0 <= k < 3 && guns[k].kind == Moveable ==> OnPath(guns[k].Position())
    {
      var h := new BallHandler();
      var a := new Gun(kinds[2], h, offsets[2].0, offsets[2].1);
      var g0 := PlacedGun(kinds[0], h, offsets[0].0, offsets[0].1, places[0].0, places[0].1);
      var g1 := PlacedGun(kinds[1], h, offsets[1].0, offsets[1].1, places[1].0, places[1].1);
      points, targets := 0, [];
      handler := h;
      bomb := new Bomb();
      activeGun := a;
      guns := [g0, g1, a];
      this.difficulty := difficulty;
    }

    /**
     * `hit_target`: a point and a fresh shot count, then
     * `targets.remove(target)`, which raises ValueError for a target that is
     * not in the list (after the point is counted).
     */
    method HitTarget(t: Target) returns (r: Result<()>)
      requires Valid()
      modifies this, handler
      ensures Valid()
      ensures points == old(points) + 1 && handler.shotCount == 0
      ensures r.Ok? <==> t in old(targets)
      ensures r.Err? ==> r.error == ValueError
      ensures targets == RemoveFirst(old(targets), t) && t !in targets
      ensures handler.balls == old(handler.balls) && handler.queue == old(handler.queue) && activeGun == old(activeGun)
    {
      points := points + 1;
      handler.shotCount := 0;
      RemoveFirstDistinct(targets, t);
      r := if t in targets then Ok(()) else Err(ValueError);
      targets := RemoveFirst(targets, t);
    }

    /**
     * `new_round`: a fresh shot count and exactly `difficulty.targets` new
     * targets; `kinds` are the `choice`s among the allowed kinds and
     * `spawns` the draws of each target's constructor.
     */
    method NewRound(kinds: seq<TargetKind>, spawns: seq<Spawn>)
      requires Valid() && |kinds| == difficulty.targets && |spawns| == difficulty.targets
      requires forall k :: 0 <= k < |kinds| ==> kinds[k] in difficulty.allowed && Drawable(spawns[k], difficulty)
      modifies this, handler
      ensures Valid() && handler.shotCount == 0
      ensures |targets| == difficulty.targets
      ensures forall k :: 0 <= k < |targets| ==> fresh(targets[k]) && targets[k].kind == kinds[k] && targets[k].kind in difficulty.allowed
      ensures forall k :: 0 <= k < |targets| ==> (targets[k].x, targets[k].y) == (spawns[k].x as real, spawns[k].y as real)
      ensures points == old(points) && activeGun == old(activeGun)
      ensures handler.balls == old(handler.balls) && handler.queue == old(handler.queue)
    {
      handler.shotCount := 0;
      targets := MakeTargets(difficulty, kinds, spawns);
    }

    /**
     * The bomb's part of a frame: once the timer has reached five seconds
     * the bomb drops a target and the timer restarts; otherwise the timer
     * gathers the frame time.
     */
    method DropTick(lastdrop: real, timestep: real, spawn: Spawn) returns (next: real)
      requires Valid() && Drawable(spawn, difficulty)
      modifies this
      ensures Valid() && next == NextDrop(lastdrop, timestep)
      ensures lastdrop >= DropInterval ==>
        && |targets| == |old(targets)| + 1 && targets[..|old(targets)|] == old(targets)
        && fresh(targets[|old(targets)|]) && targets[|old(targets)|].kind == Falling
      ensures lastdrop < DropInterval ==> targets == old(targets)
      ensures points == old(points) && activeGun == old(activeGun)
    {
      if lastdrop >= DropInterval {
        next := 0.0;
        bomb.Drop(this, spawn);
      } else {
        next := lastdrop + timestep;
      }
    }

    /** The start of a frame with targets left: every gun is switched off, then the active one on. */
    method ActivateGuns()
      requires Valid()
      modifies guns
      ensures forall g :: g in guns ==> (g.active <==> g == activeGun)
      ensures forall g :: g in guns ==> Snap(g) == old(Snap(g)).(active := g.active)
    {
      for k := 0 to |guns|
        invariant forall j :: 0 <= j < k ==> !guns[j].active
        invariant forall g :: g in guns ==> Snap(g) == old(Snap(g)).(active := g.active)
      {
        guns[k].active := false;
      }
      activeGun.active := true;
    }

    /**
     * The control swap of a frame: every gun moves in list order, and a gun
     * other than the active one of the moment that a live ball hits takes
     * control: the first such ball is removed and its type goes back to the
     * head of the queue. The comparison is with the active gun of the
     * moment, so the gun that lost control earlier in the frame can take it
     * back. `removed` are the balls handed back and `takers[k]` the position
     * in `guns` of the gun `removed[k]` hit.
     */
    method SwapControl(timestep: real) returns (ghost removed: seq<Ball>, ghost takers: seq<nat>)
      requires Valid()
      modifies this, handler, guns
      ensures Valid()
      ensures forall k :: 0 <= k < |guns| ==>
        Snap(guns[k]) == old(Snap(guns[k])).(pos := GunStep(guns[k].kind, old(guns[k].Position()), timestep))
      ensures |takers| == |removed| && forall k :: 0 <= k < |takers| ==> takers[k] < |guns|
      ensures forall p, q :: 0 <= p < q < |takers| ==> takers[p] < takers[q]
      ensures forall k :: 0 <= k < |removed| ==>
        && guns[takers[k]] != ActiveAfter(guns, old(activeGun), takers, k)
        && FirstHit(Without(old(handler.balls), removed[..k]), removed[k], guns[takers[k]].x, guns[takers[k]].y, GunRadius)
      ensures forall i :: 0 <= i < |guns| && i !in takers ==>
        Declined(guns, old(activeGun), old(handler.balls), removed, takers, i, guns[i].x, guns[i].y)
      ensures handler.balls == Without(old(handler.balls), removed) && |handler.balls| == |old(handler.balls)| - |removed|
      ensures forall k :: 0 <= k < |removed| ==> removed[k] in old(handler.balls) && removed[k] !in handler.balls
      ensures handler.queue == Returned(removed) + old(handler.queue)
      ensures activeGun == ActiveAfter(guns, old(activeGun), takers, |takers|)
      ensures points == old(points) && targets == old(targets) && handler.shotCount == old(handler.shotCount)
    {
      ghost var before := Snaps(guns);
      ghost var moved := StepGuns(guns, before, timestep);
      assert forall k :: 0 <= k < |guns| ==> old(Snap(guns[k])) == before[k] && old(guns[k].Position()) == before[k].pos;
      removed, takers := [], [];
      for j := 0 to |guns|
        invariant Swapping(j, before, moved, old(handler.balls), old(handler.queue), old(activeGun), removed, takers)
        invariant points == old(points) && targets == old(targets) && handler.shotCount == old(handler.shotCount)
      {
        removed, takers := GunTurn(j, timestep, before, moved, old(handler.balls), old(handler.queue), old(activeGun), removed, takers);
      }
      SwapEnd(timestep, before, moved, old(handler.balls), old(handler.queue), old(activeGun), removed, takers);
    }

    /** What the control swap has done once every gun had its turn. */
    lemma SwapEnd(timestep: real, before: seq<GunSnap>, moved: seq<GunSnap>, balls0: seq<Ball>, queue0: seq<BallKind>,
                  active0: Gun, removed: seq<Ball>, takers: seq<nat>)
      requires Swapping(|guns|, before, moved, balls0, queue0, active0, removed, takers)
      requires moved == StepGuns(guns, before, timestep)
      ensures forall k :: 0 <= k < |guns| ==> Snap(guns[k]) == before[k].(pos := GunStep(guns[k].kind, before[k].pos, timestep))
      ensures |takers| == |removed| && forall k :: 0 <= k < |takers| ==> takers[k] < |guns|
      ensures forall p, q :: 0 <= p < q < |takers| ==> takers[p] < takers[q]
      ensures forall k :: 0 <= k < |removed| ==>
        && guns[takers[k]] != ActiveAfter(guns, active0, takers, k)
        && FirstHit(Without(balls0, removed[..k]), removed[k], guns[takers[k]].x, guns[takers[k]].y, GunRadius)
      ensures forall i :: 0 <= i < |guns| && i !in takers ==>
        Declined(guns, active0, balls0, removed, takers, i, guns[i].x, guns[i].y)
      ensures handler.balls == Without(balls0, removed) && |handler.balls| == |balls0| - |removed|
      ensures forall k :: 0 <= k < |removed| ==> removed[k] in balls0 && removed[k] !in handler.balls
      ensures handler.queue == Returned(removed) + queue0
      ensures activeGun == ActiveAfter(guns, active0, takers, |takers|)
    {
      assert moved[..|guns|] + before[|guns|..] == moved;
      assert SnapsAre(guns, moved);
      forall k | 0 <= k < |removed|
        ensures && guns[takers[k]] != ActiveAfter(guns, active0, takers, k)
                && FirstHit(Without(balls0, removed[..k]), removed[k], guns[takers[k]].x, guns[takers[k]].y, GunRadius)
      {
        assert Handover(guns, moved, balls0, active0, removed, takers, k);
        assert Snap(guns[takers[k]]) == moved[takers[k]];
      }
      forall i | 0 <= i < |guns| && i !in takers
        ensures Declined(guns, active0, balls0, removed, takers, i, guns[i].x, guns[i].y)
      {
        assert Declined(guns, active0, balls0, removed, takers, i, moved[i].pos.x, moved[i].pos.y);
        assert Snap(guns[i]) == moved[i];
      }
    }

    /**
     * The state of the control swap once the first `j` guns have had their
     * turn: they have moved and the others not, the balls `removed` went
     * back to the queue as `Took` says, and the last taker has control.
     */
    ghost predicate Swapping(j: nat, before: seq<GunSnap>, moved: seq<GunSnap>, balls0: seq<Ball>, queue0: seq<BallKind>,
                             active0: Gun, removed: seq<Ball>, takers: seq<nat>)
      reads this, handler, guns, set b | b in balls0
    {
      && Valid() && j <= |guns| && |before| == |moved| == |guns|
      && SnapsAre(guns, moved[..j] + before[j..])
      && Handed(balls0, queue0, handler.balls, handler.queue, removed)
      && Took(guns, moved, balls0, active0, removed, takers, j)
      && activeGun == ActiveAfter(guns, active0, takers, |takers|)
    }

    /** The turn of gun `j` in the control swap: it moves, then it takes control if it is not in control and a live ball hits it. */
    method GunTurn(j: nat, timestep: real, ghost before: seq<GunSnap>, ghost moved: seq<GunSnap>, ghost balls0: seq<Ball>,
                   ghost queue0: seq<BallKind>, ghost active0: Gun, ghost removed: seq<Ball>, ghost takers: seq<nat>)
      returns (ghost removed': seq<Ball>, ghost takers': seq<nat>)
      requires j < |guns| && Swapping(j, before, moved, balls0, queue0, active0, removed, takers)
      requires moved == StepGuns(guns, before, timestep)
      modifies this, handler, guns[j]
      ensures Swapping(j + 1, before, moved, balls0, queue0, active0, removed', takers')
      ensures points == old(points) && targets == old(targets) && handler.shotCount == old(handler.shotCount)
    {
      var g := guns[j];
      MoveGunListed(guns, moved[..j] + before[j..], j, g, timestep);
      SpliceNext(moved, before, j);
      removed', takers' := ControlTurn(j, moved, balls0, queue0, active0, removed, takers);
    }

    /**
     * The second half of gun `j`'s turn, once it stands at `moved[j]`:
     * unless it has control, the first live ball that hits it hands control
     * to it; otherwise nothing changes.
     */
    method ControlTurn(j: nat, ghost moved: seq<GunSnap>, ghost balls0: seq<Ball>, ghost queue0: seq<BallKind>, ghost active0: Gun,
                       ghost removed: seq<Ball>, ghost takers: seq<nat>)
      returns (ghost removed': seq<Ball>, ghost takers': seq<nat>)
      requires Valid() && j < |guns| && j < |moved| && guns[j].Position() == moved[j].pos
      requires Handed(balls0, queue0, handler.balls, handler.queue, removed) && Took(guns, moved, balls0, active0, removed, takers, j)
      requires activeGun == ActiveAfter(guns, active0, takers, |takers|)
      modifies this, handler
      ensures Valid() && Handed(balls0, queue0, handler.balls, handler.queue, removed')
      ensures Took(guns, moved, balls0, active0, removed', takers', j + 1)
      ensures activeGun == ActiveAfter(guns, active0, takers', |takers'|)
      ensures guns[j] == ActiveAfter(guns, active0, takers, |takers|) || NoHit(Without(balls0, removed), moved[j].pos.x, moved[j].pos.y, GunRadius) ==>
        removed' == removed && takers' == takers
      ensures guns[j] != ActiveAfter(guns, active0, takers, |takers|) && !NoHit(Without(balls0, removed), moved[j].pos.x, moved[j].pos.y, GunRadius) ==>
        |removed'| == |removed| + 1 && removed'[..|removed|] == removed && takers' == takers + [j]
      ensures points == old(points) && targets == old(targets) && handler.shotCount == old(handler.shotCount)
    {
      if guns[j] != activeGun {
        removed', takers' := ContestControl(j, moved, balls0, queue0, active0, removed, takers);
      } else {
        TookPass(guns, moved, balls0, active0, removed, takers, j);
        removed', takers' := removed, takers;
      }
    }

    /** Gun `j`, standing at `moved[j]` without control, takes it when a live ball hits it. */
    method ContestControl(j: nat, ghost moved: seq<GunSnap>, ghost balls0: seq<Ball>, ghost queue0: seq<BallKind>, ghost active0: Gun,
                          ghost removed: seq<Ball>, ghost takers: seq<nat>)
      returns (ghost removed': seq<Ball>, ghost takers': seq<nat>)
      requires Valid() && j < |guns| && j < |moved| && guns[j].Position() == moved[j].pos
      requires Handed(balls0, queue0, handler.balls, handler.queue, removed) && Took(guns, moved, balls0, active0, removed, takers, j)
      requires activeGun == ActiveAfter(guns, active0, takers, |takers|) && guns[j] != activeGun
      modifies this, handler
      ensures Valid() && Handed(balls0, queue0, handler.balls, handler.queue, removed')
      ensures Took(guns, moved, balls0, active0, removed', takers', j + 1)
      ensures activeGun == ActiveAfter(guns, active0, takers', |takers'|)
      ensures NoHit(Without(balls0, removed), moved[j].pos.x, moved[j].pos.y, GunRadius) ==> removed' == removed && takers' == takers
      ensures !NoHit(Without(balls0, removed), moved[j].pos.x, moved[j].pos.y, GunRadius) ==>
        |removed'| == |removed| + 1 && removed'[..|removed|] == removed && takers' == takers + [j]
      ensures points == old(points) && targets == old(targets) && handler.shotCount == old(handler.shotCount)
    {
      var g := guns[j];
      removed', takers' := removed, takers;
      ghost var balls, queue := handler.balls, handler.queue;
      ghost var taken := TakeControl(g);
      if taken.Some? {
        HandedNext(balls0, queue0, balls, queue, removed, taken.value, handler.balls, handler.queue);
        TookNext(guns, moved, balls0, active0, removed, takers, j, taken.value);
        removed', takers' := removed + [taken.value], takers + [j];
        assert removed'[..|removed|] == removed;
      } else {
        TookPass(guns, moved, balls0, active0, removed, takers, j);
      }
    }

    /**
     * One gun's turn in the control swap: the first live ball that hits it
     * is removed, its type goes back to the head of the queue and the gun
     * takes control; `taken` is that ball.
     */
    method TakeControl(g: Gun) returns (ghost taken: Option<Ball>)
      requires Valid() && g in guns
      modifies this, handler
      ensures Valid()
      ensures taken.None? <==> NoHit(old(handler.balls), g.x, g.y, GunRadius)
      ensures taken.None? ==> handler.balls == old(handler.balls) && handler.queue == old(handler.queue) && activeGun == old(activeGun)
      ensures taken.Some? ==>
        && FirstHit(old(handler.balls), taken.value, g.x, g.y, GunRadius)
        && handler.balls == RemoveFirst(old(handler.balls), taken.value) && taken.value !in handler.balls
        && handler.queue == [taken.value.kind] + old(handler.queue) && activeGun == g
      ensures points == old(points) && targets == old(targets) && handler.shotCount == old(handler.shotCount)
    {
      var h := handler.HitTest(g.x, g.y, GunRadius);
      taken := h;
      if h.Some? {
        var b := h.value;
        var _ := handler.RemoveBall(b);
        handler.InsertFront(b.kind);
        activeGun := g;
      }
    }

    /**
     * The scoring of a frame: each target in turn moves and, when a live
     * ball hits it, scores, leaves the list and takes the first such ball
     * with it. The loop removes from the list it is iterating, so the
     * target after a hit one is passed over that frame: it neither moves nor
     * is tested. `done` is the fate of each target and `hitBy` the ball that
     * hit each removed one.
     */
    method HitTargets(timestep: real, cosAngle: real, sinAngle: real) returns (ghost done: seq<Fate>, ghost hitBy: seq<Option<Ball>>)
      requires Valid()
      modifies this, handler, targets
      ensures Valid()
      ensures |done| == |old(targets)| && SkipsFollowRemovals(done)
      ensures targets == Kept(old(targets), done)
      ensures var before := old(TargetStates(targets));
        forall k :: 0 <= k < |done| ==>
          old(targets)[k].State() == if done[k] == Skipped then before[k]
            else TargetStep(old(targets)[k].kind, old(targets)[k].originX, old(targets)[k].originY, before[k], timestep, cosAngle, sinAngle)
      ensures |hitBy| == |done| && forall k :: 0 <= k < |done| ==> (done[k] == Removed <==> hitBy[k].Some?)
      ensures handler.balls == Without(old(handler.balls), HitBalls(hitBy))
      ensures forall k :: 0 <= k < |done| && hitBy[k].Some? ==>
        && hitBy[k].value in old(handler.balls) && hitBy[k].value !in handler.balls
        && FirstHit(Without(old(handler.balls), HitBalls(hitBy[..k])), hitBy[k].value, old(targets)[k].x, old(targets)[k].y, old(targets)[k].r)
      ensures forall k :: 0 <= k < |done| && done[k] == Stepped ==>
        NoHit(Without(old(handler.balls), HitBalls(hitBy[..k])), old(targets)[k].x, old(targets)[k].y, old(targets)[k].r)
      ensures points + |targets| == old(points) + |old(targets)|
      ensures |handler.balls| + points == |old(handler.balls)| + old(points)
      ensures forall b :: b in handler.balls ==> b in old(handler.balls)
      ensures handler.shotCount == if points == old(points) then old(handler.shotCount) else 0
      ensures handler.queue == old(handler.queue) && activeGun == old(activeGun)
    {
      ghost var orig := targets;
      ghost var before := TargetStates(orig);
      ghost var after := StepAll(orig, before, timestep, cosAngle, sinAngle);
      ghost var balls0 := handler.balls;
      assert Kept(orig[..0], []) + orig[0..] == targets;
      ghost var i;
      done, hitBy, i := ScoreLoop(timestep, cosAngle, sinAngle, orig, before, after, balls0,
                                  handler.queue, handler.shotCount, points, activeGun);
      ScoreEnd(i, timestep, cosAngle, sinAngle, orig, before, after, balls0,
               old(handler.queue), old(handler.shotCount), old(points), old(activeGun), done, hitBy);
    }

    /** The loop of the scoring: every target in turn, from the start of the list to its end. */
    method ScoreLoop(timestep: real, cosAngle: real, sinAngle: real, ghost orig: seq<Target>, ghost before: seq<TargetState>,
                     ghost after: seq<TargetState>, ghost balls0: seq<Ball>, ghost queue0: seq<BallKind>, ghost count0: int,
                     ghost points0: int, ghost active0: Gun)
      returns (ghost done: seq<Fate>, ghost hitBy: seq<Option<Ball>>, ghost iEnd: int)
      requires |before| == |orig| && after == StepAll(orig, before, timestep, cosAngle, sinAngle)
      requires Tally(0, orig, after, balls0, queue0, count0, points0, active0, [], [])
      requires TargetStatesAre(orig, before)
      modifies this, handler, orig
      ensures !(iEnd < |targets|)
      ensures Tally(iEnd, orig, after, balls0, queue0, count0, points0, active0, done, hitBy)
      ensures TargetStatesAre(orig, Visited(before, after, done))
    {
      done, hitBy := [], [];
      var i := 0;
      while i < |targets|
        invariant Tally(i, orig, after, balls0, queue0, count0, points0, active0, done, hitBy)
        invariant TargetStatesAre(orig, Visited(before, after, done))
        decreases |orig| - |done|
      {
        done, hitBy, i := TargetTurn(i, timestep, cosAngle, sinAngle, orig, before, after, balls0,
                                     queue0, count0, points0, active0, done, hitBy);
      }
      iEnd := i;
    }

    /** What the scoring has done once the iterator has left the list. */
    lemma ScoreEnd(i: int, timestep: real, cosAngle: real, sinAngle: real, orig: seq<Target>, before: seq<TargetState>,
                   after: seq<TargetState>, balls0: seq<Ball>, queue0: seq<BallKind>, count0: int,
                   points0: int, active0: Gun, done: seq<Fate>, hitBy: seq<Option<Ball>>)
      requires !(i < |targets|) && |before| == |orig| && after == StepAll(orig, before, timestep, cosAngle, sinAngle)
      requires Tally(i, orig, after, balls0, queue0, count0, points0, active0, done, hitBy)
      requires TargetStatesAre(orig, Visited(before, after, done))
      ensures |done| == |orig| && targets == Kept(orig, done)
      ensures forall k :: 0 <= k < |done| ==>
        orig[k].State() == if done[k] == Skipped then before[k]
          else TargetStep(orig[k].kind, orig[k].originX, orig[k].originY, before[k], timestep, cosAngle, sinAngle)
      ensures |hitBy| == |done| && handler.balls == Without(balls0, HitBalls(hitBy))
      ensures forall k :: 0 <= k < |done| && hitBy[k].Some? ==>
        && hitBy[k].value in balls0 && hitBy[k].value !in handler.balls
        && FirstHit(Without(balls0, HitBalls(hitBy[..k])), hitBy[k].value, orig[k].x, orig[k].y, orig[k].r)
      ensures forall k :: 0 <= k < |done| && done[k] == Stepped ==>
        NoHit(Without(balls0, HitBalls(hitBy[..k])), orig[k].x, orig[k].y, orig[k].r)
    {
      ListedEnd(orig, done, targets, i);
      forall k | 0 <= k < |done| && done[k] != Skipped
        ensures (orig[k].x, orig[k].y) == (after[k].pos.x, after[k].pos.y)
      {
        assert orig[k].State() == after[k];
      }
      forall k | 0 <= k < |done| && hitBy[k].Some?
        ensures FirstHit(Without(balls0, HitBalls(hitBy[..k])), hitBy[k].value, orig[k].x, orig[k].y, orig[k].r)
      {
        assert Met(orig, after, done, hitBy, balls0, k);
        assert done[k] == Removed;
      }
      forall k | 0 <= k < |done| && done[k] == Stepped
        ensures NoHit(Without(balls0, HitBalls(hitBy[..k])), orig[k].x, orig[k].y, orig[k].r)
      {
        assert Met(orig, after, done, hitBy, balls0, k);
      }
    }

    /** A hit on the target at position `i` of the list: `hit_target`, then `remove_ball` for the ball that hit it. */
    method Score(i: int, b: Ball, ghost ts: seq<Target>, ghost states: seq<TargetState>)
      requires Valid() && 0 <= i < |targets| && b in handler.balls && TargetStatesAre(ts, states)
      modifies this, handler
      ensures Valid() && TargetStatesAre(ts, states)
      ensures targets == old(targets)[..i] + old(targets)[i + 1..]
      ensures handler.balls == RemoveFirst(old(handler.balls), b) && b !in handler.balls
      ensures points == old(points) + 1 && handler.shotCount == 0
      ensures handler.queue == old(handler.queue) && activeGun == old(activeGun)
    {
      RemoveFirstAt(targets, i);
      var _ := HitTarget(targets[i]);
      var _ := handler.RemoveBall(b);
    }

    /**
     * The bookkeeping of the scoring loop once the targets of `done` have
     * been visited: the list and the iterator stand as `Listed` says, and
     * every removal scored a point and took a ball.
     */
    ghost predicate Tally(i: int, orig: seq<Target>, after: seq<TargetState>, balls0: seq<Ball>,
                          queue0: seq<BallKind>, count0: int, points0: int, active0: Gun, done: seq<Fate>, hitBy: seq<Option<Ball>>)
      reads this, handler, set b | b in balls0
    {
      && Valid() && Distinct(orig) && |after| == |orig|
      && Listed(orig, done, targets, i)
      && SkipsFollowRemovals(done) && (0 < |done| < |orig| ==> done[|done| - 1] != Removed)
      && HitRecord(orig, after, done, hitBy, balls0, handler.balls)
      && points + |targets| == points0 + |orig|
      && |handler.balls| + points == |balls0| + points0
      && handler.shotCount == (if points == points0 then count0 else 0)
      && handler.queue == queue0 && activeGun == active0
    }

    /** The turn of the target at the iterator: it moves, and it scores and leaves the list when a live ball hits it. */
    method TargetTurn(i: int, timestep: real, cosAngle: real, sinAngle: real, ghost orig: seq<Target>, ghost before: seq<TargetState>,
                      ghost after: seq<TargetState>, ghost balls0: seq<Ball>, ghost queue0: seq<BallKind>, ghost count0: int,
                      ghost points0: int, ghost active0: Gun, ghost done: seq<Fate>, ghost hitBy: seq<Option<Ball>>)
      returns (ghost done': seq<Fate>, ghost hitBy': seq<Option<Ball>>, i': int)
      requires Valid() && 0 <= i < |targets| && |before| == |orig|
      requires Tally(i, orig, after, balls0, queue0, count0, points0, active0, done, hitBy)
      requires TargetStatesAre(orig, Visited(before, after, done))
      requires after == StepAll(orig, before, timestep, cosAngle, sinAngle)
      modifies this, handler, targets[i]
      ensures Valid() && |done| < |done'|
      ensures Tally(i', orig, after, balls0, queue0, count0, points0, active0, done', hitBy')
      ensures TargetStatesAre(orig, Visited(before, after, done'))
    {
      ghost var cur := Visited(before, after, done);
      ghost var j := |done|;
      ListedAt(orig, done, targets, i);
      var t := targets[i];
      MoveTargetListed(orig, cur, j, t, timestep, cosAngle, sinAngle);
      assert cur[j] == before[j] && t.State() == after[j];
      ghost var moved := cur[j := after[j]];
      assert TargetStatesAre(orig, moved);
      assert Tally(i, orig, after, balls0, queue0, count0, points0, active0, done, hitBy);
      done', hitBy' := HitTurn(i, orig, moved, after, balls0, queue0, count0, points0, active0, done, hitBy);
      VisitedNext(before, after, cur, done, done');
      i' := i + 1;
    }

    /** The second half of a target's turn, once it stands at its step: the first live ball that hits it scores. */
    method HitTurn(i: int, ghost orig: seq<Target>, ghost moved: seq<TargetState>, ghost after: seq<TargetState>, ghost balls0: seq<Ball>,
                   ghost queue0: seq<BallKind>, ghost count0: int, ghost points0: int, ghost active0: Gun,
                   ghost done: seq<Fate>, ghost hitBy: seq<Option<Ball>>)
      returns (ghost done': seq<Fate>, ghost hitBy': seq<Option<Ball>>)
      requires Valid() && 0 <= i < |targets| && |done| < |orig|
      requires Tally(i, orig, after, balls0, queue0, count0, points0, active0, done, hitBy)
      requires targets[i] == orig[|done|] && targets[i].State() == after[|done|]
      requires TargetStatesAre(orig, moved)
      modifies this, handler
      ensures Valid() && TargetStatesAre(orig, moved)
      ensures done' == done + [Stepped] || done' == done + [Removed] || done' == done + [Removed, Skipped]
      ensures Tally(i + 1, orig, after, balls0, queue0, count0, points0, active0, done', hitBy')
    {
      var t := targets[i];
      var h := handler.HitTest(t.x, t.y, t.r);
      if h.Some? {
        done', hitBy' := ScoreHit(i, h.value, orig, moved, after, balls0, queue0, count0, points0, active0, done, hitBy);
      } else {
        PassTarget(i, orig, after, balls0, queue0, count0, points0, active0, done, hitBy);
        done', hitBy' := done + [Stepped], hitBy + [None];
      }
    }

    /** A live ball hit the target at the iterator: the target scores and leaves, the ball goes, and the next target is passed over. */
    method ScoreHit(i: int, b: Ball, ghost orig: seq<Target>, ghost states: seq<TargetState>, ghost after: seq<TargetState>, ghost balls0: seq<Ball>,
                    ghost queue0: seq<BallKind>, ghost count0: int, ghost points0: int, ghost active0: Gun,
                    ghost done: seq<Fate>, ghost hitBy: seq<Option<Ball>>)
      returns (ghost done': seq<Fate>, ghost hitBy': seq<Option<Ball>>)
      requires Valid() && 0 <= i < |targets| && |done| < |orig|
      requires Tally(i, orig, after, balls0, queue0, count0, points0, active0, done, hitBy)
      requires FirstHit(handler.balls, b, after[|done|].pos.x, after[|done|].pos.y, orig[|done|].r)
      requires TargetStatesAre(orig, states)
      modifies this, handler
      ensures Valid() && (done' == done + [Removed] || done' == done + [Removed, Skipped])
      ensures TargetStatesAre(orig, states)
      ensures Tally(i + 1, orig, after, balls0, queue0, count0, points0, active0, done', hitBy')
    {
      ghost var list, balls := targets, handler.balls;
      Score(i, b, orig, states);
      RecordRemoved(orig, after, done, hitBy, balls0, balls, handler.balls, b);
      if |done| + 1 < |orig| {
        ListedRemovedPair(orig, done, list, i);
        SkipsAppend(done, [Removed, Skipped]);
        RecordPassed(orig, after, done + [Removed], hitBy + [Some(b)], balls0, handler.balls, Skipped);
        assert done + [Removed] + [Skipped] == done + [Removed, Skipped];
        done', hitBy' := done + [Removed, Skipped], hitBy + [Some(b)] + [None];
      } else {
        ListedRemovedLast(orig, done, list, i);
        SkipsAppend(done, [Removed]);
        done', hitBy' := done + [Removed], hitBy + [Some(b)];
      }
    }

    /** No live ball hit the target at the iterator: it keeps its place and the iterator moves on. */
    lemma PassTarget(i: int, orig: seq<Target>, after: seq<TargetState>, balls0: seq<Ball>,
                     queue0: seq<BallKind>, count0: int, points0: int, active0: Gun, done: seq<Fate>, hitBy: seq<Option<Ball>>)
      requires |done| < |orig| && Tally(i, orig, after, balls0, queue0, count0, points0, active0, done, hitBy)
      requires NoHit(handler.balls, after[|done|].pos.x, after[|done|].pos.y, orig[|done|].r)
      ensures Tally(i + 1, orig, after, balls0, queue0, count0, points0, active0, done + [Stepped], hitBy + [None])
    {
      ListedStepped(orig, done, targets, i);
      SkipsAppend(done, [Stepped]);
      RecordPassed(orig, after, done, hitBy, balls0, handler.balls, Stepped);
    }
  }

  /** The balls that the recorded hits took out of the live list, in order. */
  function HitBalls(hitBy: seq<Option<Ball>>): (bs: seq<Ball>)
    ensures |bs| <= |hitBy|
  {
    if hitBy == [] then []
    else HitBalls(hitBy[..|hitBy| - 1]) + (if hitBy[|hitBy| - 1].Some? then [hitBy[|hitBy| - 1].value] else [])
  }

  /**
   * What the scoring loop records about hits: a target is removed exactly
   * when a ball hit it, that ball was the first of the balls still live at
   * the target's visit to hit it and has left the list, and no ball live at
   * its visit hits a target that moved and stayed.
   */
  ghost predicate HitRecord(orig: seq<Target>, after: seq<TargetState>, done: seq<Fate>, hitBy: seq<Option<Ball>>,
                            balls0: seq<Ball>, balls: seq<Ball>)
    reads set b | b in balls0
  {
    && |hitBy| == |done| <= |orig| == |after|
    && balls == Without(balls0, HitBalls(hitBy))
    && (forall b :: b in balls ==> b in balls0)
    && (forall k :: 0 <= k < |done| ==> (done[k] == Removed <==> hitBy[k].Some?))
    && (forall k :: 0 <= k < |done| && hitBy[k].Some? ==> hitBy[k].value in balls0 && hitBy[k].value !in balls)
    && (forall k :: 0 <= k < |done| ==> Met(orig, after, done, hitBy, balls0, k))
  }

  /** The `k`-th visit: a hit is by the first ball live at that visit to hit the target, a step means no such ball hit it. */
  ghost predicate Met(orig: seq<Target>, after: seq<TargetState>, done: seq<Fate>, hitBy: seq<Option<Ball>>, balls0: seq<Ball>, k: nat)
    reads set b | b in balls0
  {
    && k < |done| && k < |hitBy| && k < |orig| && k < |after|
    && (hitBy[k].Some? ==> FirstHit(Without(balls0, HitBalls(hitBy[..k])), hitBy[k].value, after[k].pos.x, after[k].pos.y, orig[k].r))
    && (done[k] == Stepped ==> NoHit(Without(balls0, HitBalls(hitBy[..k])), after[k].pos.x, after[k].pos.y, orig[k].r))
  }

  /** Appending entries keeps what the earlier visits recorded. */
  lemma MetExtend(orig: seq<Target>, after: seq<TargetState>, done: seq<Fate>, hitBy: seq<Option<Ball>>, balls0: seq<Ball>,
                  done': seq<Fate>, hitBy': seq<Option<Ball>>, k: nat)
    requires Met(orig, after, done, hitBy, balls0, k) && |done'| <= |orig| && |hitBy'| == |done'| && |orig| == |after|
    requires |hitBy| == |done| <= |done'| && done'[..|done|] == done && hitBy'[..|hitBy|] == hitBy
    ensures Met(orig, after, done', hitBy', balls0, k)
  {
    assert hitBy'[..k] == hitBy[..k];
    assert done'[k] == done[k] && hitBy'[k] == hitBy[k];
  }

  /**
   * A target that no ball hit is recorded: it moved and stayed, no ball
   * live at its visit hitting it, or it was passed over after a removal.
   */
  lemma RecordPassed(orig: seq<Target>, after: seq<TargetState>, done: seq<Fate>, hitBy: seq<Option<Ball>>,
                     balls0: seq<Ball>, balls: seq<Ball>, f: Fate)
    requires HitRecord(orig, after, done, hitBy, balls0, balls) && |done| < |orig| && f != Removed
    requires f == Stepped ==> NoHit(balls, after[|done|].pos.x, after[|done|].pos.y, orig[|done|].r)
    ensures HitRecord(orig, after, done + [f], hitBy + [None], balls0, balls)
  {
    var done', hitBy' := done + [f], hitBy + [None];
    assert hitBy'[..|hitBy|] == hitBy && done'[..|done|] == done;
    assert HitBalls(hitBy') == HitBalls(hitBy);
    forall k | 0 <= k < |done'|
      ensures Met(orig, after, done', hitBy', balls0, k)
    {
      if k < |done| {
        MetExtend(orig, after, done, hitBy, balls0, done', hitBy', k);
      }
    }
  }

  /** A hit target is recorded as removed by the first live ball that hit it, which has left the live list. */
  lemma RecordRemoved(orig: seq<Target>, after: seq<TargetState>, done: seq<Fate>, hitBy: seq<Option<Ball>>,
                      balls0: seq<Ball>, balls: seq<Ball>, balls': seq<Ball>, b: Ball)
    requires HitRecord(orig, after, done, hitBy, balls0, balls) && |done| < |orig|
    requires FirstHit(balls, b, after[|done|].pos.x, after[|done|].pos.y, orig[|done|].r)
    requires balls' == RemoveFirst(balls, b) && b !in balls'
    ensures HitRecord(orig, after, done + [Removed], hitBy + [Some(b)], balls0, balls')
  {
    var done', hitBy' := done + [Removed], hitBy + [Some(b)];
    var n := |hitBy|;
    assert hitBy'[..n] == hitBy;
    assert (HitBalls(hitBy) + [b])[..|HitBalls(hitBy)|] == HitBalls(hitBy);
    assert balls' == Without(balls0, HitBalls(hitBy'));
    var i :| 0 <= i < |balls| && balls[i] == b;
    assert b in balls0;
    forall k | 0 <= k < |done'|
      ensures done'[k] == Removed <==> hitBy'[k].Some?
    {
      if k < n {
        assert done'[k] == done[k] && hitBy'[k] == hitBy[k];
      }
    }
    forall k | 0 <= k < |done'| && hitBy'[k].Some?
      ensures hitBy'[k].value in balls0 && hitBy'[k].value !in balls'
    {
      if k < n {
        assert hitBy'[k] == hitBy[k];
      }
    }
    MetRemoved(orig, after, done, hitBy, balls0, balls, b);
  }

  lemma MetRemoved(orig: seq<Target>, after: seq<TargetState>, done: seq<Fate>, hitBy: seq<Option<Ball>>,
                   balls0: seq<Ball>, balls: seq<Ball>, b: Ball)
    requires HitRecord(orig, after, done, hitBy, balls0, balls) && |done| < |orig|
    requires FirstHit(balls, b, after[|done|].pos.x, after[|done|].pos.y, orig[|done|].r)
    ensures forall k :: 0 <= k < |done| + 1 ==> Met(orig, after, done + [Removed], hitBy + [Some(b)], balls0, k)
  {
    var done', hitBy' := done + [Removed], hitBy + [Some(b)];
    var n := |hitBy|;
    assert hitBy'[..n] == hitBy && done'[..n] == done;
    forall k | 0 <= k < |done'|
      ensures Met(orig, after, done', hitBy', balls0, k)
    {
      if k < n {
        MetExtend(orig, after, done, hitBy, balls0, done', hitBy', k);
      }
    }
  }
}
