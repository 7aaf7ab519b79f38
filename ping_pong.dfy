/**
 * The back-and-forth motion shared by `MoveableGun` and `MovingTarget` in
 * laba6/deob.py: the object approaches its far end `to` by a fraction of
 * the remaining offset each frame, and once it is within distance 1 of it
 * the two ends swap, so it heads back to where it came from.
 *
 * The distance test `sqrt(d2) <= 1` is written as `d2 <= 1`, which holds
 * exactly when it does because d2 is a sum of squares.
 */
module PingPong {
  /** The position and the two ends of the path. */
  datatype Track = Track(x: real, y: real, fromX: real, fromY: real, toX: real, toY: real)

  function Sq(a: real): real
  {
    a * a
  }

  /** `move`: one frame with step fraction `lt` (timestep for a gun, timestep * 0.5 for a target). */
  function Glide(t: Track, lt: real): Track
  {
    var a := Approach(t, lt);
    if Sq(a.toX - a.x) + Sq(a.toY - a.y) <= 1.0 then Swap(a) else a
  }

  /** The position update of `move`, before the distance test. */
  function Approach(t: Track, lt: real): Track
  {
    t.(x := t.x + (t.toX - t.x) * lt, y := t.y + (t.toY - t.y) * lt)
  }

  /** `swap_positions`: the ends exchange. */
  function Swap(t: Track): Track
  {
    t.(fromX := t.toX, fromY := t.toY, toX := t.fromX, toY := t.fromY)
  }

  /** `MoveableGun.update_position`: the gun jumps to (nx, ny), which becomes the near end, and the far end moves along. */
  function Relocate(t: Track, nx: real, ny: real): Track
  {
    Track(nx, ny, nx, ny, t.toX + (nx - t.x), t.toY + (ny - t.y))
  }

  /** The point a fraction `s` of the way from the near end to the far end. */
  predicate At(t: Track, s: real)
  {
    t.x == t.fromX + s * (t.toX - t.fromX) && t.y == t.fromY + s * (t.toY - t.fromY)
  }

  /** The position lies on the segment between the two ends. */
  ghost predicate OnPath(t: Track)
  {
    exists s :: 0.0 <= s <= 1.0 && At(t, s)
  }

  /** The ends are kept or exchanged, never changed. */
  predicate SameEnds(a: Track, b: Track)
  {
    (b.fromX, b.fromY, b.toX, b.toY) == (a.fromX, a.fromY, a.toX, a.toY) ||
    (b.fromX, b.fromY, b.toX, b.toY) == (a.toX, a.toY, a.fromX, a.fromY)
  }

  /**
   * A step moves the object towards the far end: the remaining offset is
   * scaled by 1 - lt in both coordinates, and the ends swap exactly when the
   * new position is within distance 1 of the far end.
   */
  lemma GlideApproaches(t: Track, lt: real)
    ensures var r := Glide(t, lt);
      && t.toX - r.x == (t.toX - t.x) * (1.0 - lt)
      && t.toY - r.y == (t.toY - t.y) * (1.0 - lt)
      && SameEnds(t, r)
      && (Sq(t.toX - r.x) + Sq(t.toY - r.y) <= 1.0 ==> (r.fromX, r.fromY, r.toX, r.toY) == (t.toX, t.toY, t.fromX, t.fromY))
      && (Sq(t.toX - r.x) + Sq(t.toY - r.y) > 1.0 ==> (r.fromX, r.fromY, r.toX, r.toY) == (t.fromX, t.fromY, t.toX, t.toY))
  {
  }

  /** A step with a fraction between 0 and 1 keeps the object on the segment between the ends. */
  lemma GlideStaysOnPath(t: Track, lt: real)
    requires OnPath(t) && 0.0 <= lt <= 1.0
    ensures OnPath(Glide(t, lt))
  {
    var s :| 0.0 <= s <= 1.0 && At(t, s);
    var s' := ApproachAlong(t, s, lt);
    if Glide(t, lt) == Swap(Approach(t, lt)) {
      SwapAt(Approach(t, lt), s');
    }
  }

  /** Approaching from a fraction s of the way lands at a fraction s + (1 - s) * lt, still between 0 and 1. */
  lemma ApproachAlong(t: Track, s: real, lt: real) returns (s': real)
    requires 0.0 <= s <= 1.0 && At(t, s) && 0.0 <= lt <= 1.0
    ensures 0.0 <= s' <= 1.0 && At(Approach(t, lt), s')
  {
    var d := (1.0 - s) * lt;
    MulBetween(1.0 - s, lt);
    assert 0.0 <= d <= 1.0 - s;
    s' := s + d;
    ApproachAt(t, s, lt);
  }

  lemma ApproachAt(t: Track, s: real, lt: real)
    requires At(t, s)
    ensures At(Approach(t, lt), s + (1.0 - s) * lt)
  {
    AdvanceAlong(t.x, t.fromX, t.toX, s, lt);
    AdvanceAlong(t.y, t.fromY, t.toY, s, lt);
  }

  /** Swapping the ends turns a fraction s of the way into 1 - s. */
  lemma SwapAt(t: Track, s: real)
    requires 0.0 <= s <= 1.0 && At(t, s)
    ensures At(Swap(t), 1.0 - s) && OnPath(Swap(t))
  {
    Reverse(t.x, t.fromX, t.toX, s);
    Reverse(t.y, t.fromY, t.toY, s);
    assert At(Swap(t), 1.0 - s);
  }

  /** A move puts the object at its near end, which is on the path. */
  lemma RelocateOnPath(t: Track, nx: real, ny: real)
    ensures var r := Relocate(t, nx, ny);
      && OnPath(r) && (r.x, r.y) == (nx, ny)
      && r.toX - r.fromX == t.toX - t.x && r.toY - r.fromY == t.toY - t.y
  {
    assert At(Relocate(t, nx, ny), 0.0);
  }

  lemma MulBetween(a: real, b: real)
    requires 0.0 <= a && 0.0 <= b <= 1.0
    ensures 0.0 <= a * b <= a
  {
    assert a * (1.0 - b) >= 0.0;
  }

  /** From a fraction s of the way, stepping lt of the remaining offset lands at s + (1 - s) * lt. */
  lemma AdvanceAlong(p: real, a: real, b: real, s: real, lt: real)
    requires p == a + s * (b - a)
    ensures p + (b - p) * lt == a + (s + (1.0 - s) * lt) * (b - a)
  {
    calc {
      p + (b - p) * lt;
      a + s * (b - a) + (b - a - s * (b - a)) * lt;
      a + s * (b - a) + (1.0 - s) * (b - a) * lt;
      a + (s + (1.0 - s) * lt) * (b - a);
    }
  }

  /** A fraction s of the way from a to b is 1 - s of the way from b to a. */
  lemma Reverse(p: real, a: real, b: real, s: real)
    requires p == a + s * (b - a)
    ensures p == b + (1.0 - s) * (a - b)
  {
  }
}
