# OOP_2024 in Dafny

A verified model of the logic of the OOP_2024 coursework programs, one
Dafny module per component:

- **The pygame cannon game**, laba6/deob.py:
  - `Colors`: the packed colour value and its unpacking.
  - `Projectiles`: the three ball kinds with their move and hit test, and `BallHandler`, the live balls plus the queue of ball types.
  - `PingPong`: the back-and-forth glide of `MoveableGun` and `MovingTarget`.
  - `Launchers`: `Gun` and `MoveableGun` with charging, firing and `power_up`.
  - `Targets`: the four target kinds and the game difficulties.
  - `GameRound`: `Bombs` and `GameState`, with the per-frame rules of the main loop (active gun, bomb drop, hand-over of control, scoring).
- **The Tkinter cannon game**, laba7/lab7.py (`TkCannon`), and its first draft, laba6/pushka.py (`TkCannonDraft`).
- **The maze escape** of lab3/RK1.py (`MazeEscape`): a breadth-first search proved to report a shortest way out.
- **The cube unfolding walk** of practice/cube.py (`CubeUnfolding`).
- **The gas of particles in a box** of lab2/5.py (`GasBox`).
- **The two RPG prototypes**, BetaTest/classes.py and AlphaTest/AlphaTest.py:
  - `RpgCommon`: the logic both share (menu, scene bonus, health, enemies, spawner, combat).
  - `RpgBeta`: the doors and Gopnik waves of the later version.
  - `RpgAlpha`: the doors of the earlier version.
- **The solar-system model** of lll/:
  - `SolarText`: the Python string operations the reader uses.
  - `SolarObjects`: the bodies and their parsers.
  - `SolarInput`: the file reader and writer.
  - `SolarModel`: one time step of the rotations.
- **The animated star systems** of lab1/ex.9.py (`Orbits`).
- `Wrappers` holds the Option and Result values.

Where the program changes objects in place, the model is a class whose
methods state the new state. Where it loops, a method carries the loop
invariants and is proved against a specification function. Lemmas then
state what the program promises about those functions.

## Model

| member | source | states |
|---|---|---|
| Colors.FromHex | laba6/deob.py:47-57 | the green and blue channels of an unpacked value are bytes (0..255), and a non-negative value gives a non-negative red channel |
| Colors.FromHexValue | laba6/deob.py:41-57 | `from_hex(c.value())` gives back `c` whenever green and blue are bytes |
| Colors.ValueFromHex | laba6/deob.py:41-57 | `from_hex(v).value()` is `v` again, for every integer `v` |
| Projectiles.ClampInRange | laba6/deob.py:159-162 | `max(lo, min(hi, v))` lies in `[lo, hi]` and is `v` itself when `v` is already inside |
| Projectiles.BounceReverses | laba6/deob.py:137-157 | a wall contact with a bounce left spends exactly one bounce, keeps the other velocity component and flips the sign of the hit one |
| Projectiles.BounceKeepsPosition | laba6/deob.py:137-157 | a wall check leaves position, radius, kind and `live` alone, spends at most one bounce, never makes bounces negative, and fails exactly on a contact with no bounce left |
| Projectiles.MoveStepProperties | laba6/deob.py:120-164 | `move` returning True leaves the ball inside the 800x600 field; returning False leaves its position unchanged; at most four bounces are spent and they never go below zero; radius, `live` and kind never change |
| Projectiles.FloorWithoutBounceStops | laba6/deob.py:137-139 | a ball touching the floor with no bounce left makes `move` return False |
| Projectiles.HitsIsDistanceTest | laba6/deob.py:174-192 | the squared comparison agrees with comparing the square-root distance with the sum of radii, and a dead ball hits nothing |
| Projectiles.HitsSymmetric | laba6/deob.py:174-192 | for two live balls, `a.hittest(b)` and `b.hittest(a)` agree |
| Projectiles.DeadBallMisses | laba6/deob.py:184-185 | a ball with `live <= 0` hits nothing |
| Projectiles.Ball.constructor | laba6/deob.py:97-118 | a new ball is at (x, y) with radius 10, zero velocity, `live` 30 and 4 bounces (15 for BouncyBall, lines 199-202); a FlyingBall's colour is Color(40, 147, 255) (lines 241-243) |
| Projectiles.Ball.Move | laba6/deob.py:120-164 | the return value and the new fields are those of the `MoveStep` frame: gravity (none for FlyingBall, lines 245-275), floor, ceiling, right and left walls in that order, then the clamped step |
| Projectiles.Ball.Wall | laba6/deob.py:137-141 | one wall check: no contact changes nothing, a contact without bounces returns False, otherwise one bounce is spent and the velocity component divided by minus the damping |
| Projectiles.States | laba6/deob.py:316-318 | the states of a ball list, position by position |
| Projectiles.Oks | laba6/deob.py:316-318 | for each ball, whether its own `move` would return True |
| Projectiles.Kept | laba6/deob.py:316-318 | the balls the frame keeps are a subsequence of the list: never longer, and only listed balls |
| Projectiles.KeptAppend | laba6/deob.py:316-318 | the kept balls of a longer list are those of the prefix plus the last ball unless it is removed |
| Projectiles.FatesSkipAfterRemoval | laba6/deob.py:316-318 | removing a ball from the list being iterated makes the loop pass over the next ball |
| Projectiles.FatesRemoveDying | laba6/deob.py:316-318 | a ball the loop visits is removed exactly when its `move` returns False |
| Projectiles.FatesSkipOnlyAfterRemoval | laba6/deob.py:316-318 | a ball is passed over only right after a ball that was removed |
| Projectiles.FatesShape | laba6/deob.py:316-318 | in one frame, passed-over balls are exactly those that follow a removed one |
| Projectiles.SkipsAppend | laba6/deob.py:316-318 | that shape survives joining two frames' worth of fates when the first does not end in a removal |
| Projectiles.PlanRemovesDying | laba6/deob.py:316-318 | the same two facts stated on the balls: removal happens exactly when `Ball.move` returns False, and the ball after a removed one is passed over |
| Projectiles.FatesStep | laba6/deob.py:316-318 | the fates from one position on, unfolded by one visit of the loop |
| Projectiles.BallHandler.constructor | laba6/deob.py:290-293 | empty ball list, empty queue, `shot_count` 0 |
| Projectiles.BallHandler.AddBall | laba6/deob.py:295-301 | the ball is appended; queue and count unchanged; no ball listed twice |
| Projectiles.BallHandler.RemoveBall | laba6/deob.py:303-309 | `list.remove`: the first occurrence goes; a ball not in the list gives ValueError; afterwards the ball is not listed |
| Projectiles.BallHandler.Move | laba6/deob.py:311-318 | the list keeps exactly the balls the frame's fates do not remove, in order; moved and removed balls have taken their `move`, passed-over balls are untouched; queue and count unchanged |
| Projectiles.BallHandler.GetNextBall | laba6/deob.py:320-331 | counts the shot; returns the queue head and drops it, or, for an empty queue, the head of a fresh batch of 15 with the rest queued |
| Projectiles.BallHandler.Refill | laba6/deob.py:339-346 | appends the 15 drawn ball types to the queue |
| Projectiles.BallHandler.InsertFront | laba6/deob.py:847 | puts a ball type back at the head of the queue |
| Projectiles.BallHandler.HitTest | laba6/deob.py:348-360 | None exactly when no ball hits; otherwise the first ball in list order that hits |
| Projectiles.Applied | laba6/deob.py:316-318 | the states after the first balls have met their fates, the rest untouched |
| Projectiles.MoveListed | laba6/deob.py:317 | moving one listed ball changes only that ball, as `MoveStep` says |
| Projectiles.AppliedNext | laba6/deob.py:316-318 | one visit of the loop moves the ball at the iterator and nothing else |
| Projectiles.Sweep | laba6/deob.py:316-318 | the loop over the list it edits returns the kept balls, without repetitions, every ball in the state its fate gives |
| Projectiles.BallTurn | laba6/deob.py:316-318 | one iteration keeps the loop's bookkeeping and settles at least one more fate |
| Projectiles.SweepEnd | laba6/deob.py:316-318 | when the iterator leaves the list, every ball met the fate the frame plan gives it |
| Projectiles.ListedAt | laba6/deob.py:316-318 | while inside the list, the iterator points at the first unvisited ball |
| Projectiles.SweepNext | laba6/deob.py:316-318 | one iteration settles the fate of the ball at the iterator and, when it dies and is not last, that of the next ball |
| Projectiles.ListedStepped | laba6/deob.py:316-318 | a ball that survives stays in the list and the iterator moves past it |
| Projectiles.ListedRemovedPair | laba6/deob.py:316-318 | removing a ball that is not last moves its successor under the iterator, which then passes over it |
| Projectiles.ListedRemovedLast | laba6/deob.py:316-318 | removing the last ball ends the loop |
| Projectiles.SweepDone | laba6/deob.py:316-318 | at loop exit the fates are those of the frame and the list is the kept balls without repetitions |
| Projectiles.ListedEnd | laba6/deob.py:316-318 | at loop exit every ball has its fate and the list is the kept balls |
| Projectiles.DistinctKept | laba6/deob.py:316-318 | removing balls from a list without repetitions leaves one without repetitions |
| Projectiles.Fates | laba6/deob.py:316-318 | one fate per ball: moved, removed, or passed over after a removal (the shape is stated by `FatesShape`) |
| Projectiles.Plan | laba6/deob.py:316-318 | one fate per ball of the list, from each ball's own `move` result |
| PingPong.GlideApproaches | laba6/deob.py:507-526 | one glide step scales the remaining offset to the far end by `1 - lt` in both coordinates; the ends swap exactly when the new position is within distance 1 of the far end, and are kept otherwise (also MovingTarget.move, lines 591-604) |
| PingPong.GlideStaysOnPath | laba6/deob.py:507-526 | with a step fraction between 0 and 1, a glide keeps the object on the segment between the two ends |
| PingPong.ApproachAlong | laba6/deob.py:522-523 | approaching from a fraction `s` of the way lands at a fraction still between 0 and 1 |
| PingPong.ApproachAt | laba6/deob.py:522-523 | approaching from a fraction `s` of the way lands at `s + (1 - s) * lt` |
| PingPong.SwapAt | laba6/deob.py:511-520 | `swap_positions` turns a fraction `s` of the way into `1 - s`, so the object stays on the path |
| PingPong.RelocateOnPath | laba6/deob.py:490-505 | after `update_position` the gun sits at its near end, on the path, and the offset to the far end is the one it had before |
| Launchers.ChargeOvershoot | laba6/deob.py:470-473 | `power_up` only tests before the step: the charge grows strictly while below 100, stops at or above 100, and never passes 100 by more than one frame's step |
| Launchers.Gun.constructor | laba6/deob.py:371-389 | power 20, not charging, angle 1, gray, inactive, at (20, 450); a MoveableGun's far end is offset by its two `rnd(-40, 40)` draws (lines 483-488); the gun starts on its path |
| Launchers.Gun.Fire2Start | laba6/deob.py:391-394 | an active gun starts charging; an inactive one is left as it is |
| Launchers.Gun.Fire2End | laba6/deob.py:396-417 | an inactive or idle gun changes nothing; otherwise the next queued ball type (refilling an empty queue) becomes a fresh ball at the gun with speed `f2_power` along the aim, coloured with the drawn colour or, for a FlyingBall, its own sky blue, appended to the live list, the shot is counted and the gun goes back to idle power 20 |
| Launchers.Gun.UpdatePosition | laba6/deob.py:419-424 | the gun jumps to the new point; a MoveableGun (lines 490-505) also moves its far end by the same offset and makes the new point its near end |
| Launchers.Gun.Targetting | laba6/deob.py:426-436 | an active gun takes the event's aim if there is one and turns red while charging, gray otherwise; an inactive gun changes nothing |
| Launchers.Gun.Move | laba6/deob.py:439-443 | a plain gun stays put; a MoveableGun takes one glide step (lines 507-526) |
| Launchers.Gun.PowerUp | laba6/deob.py:470-476 | an active, charging gun gains `timestep * 100` while below 100 and turns red; otherwise it only turns gray |
| Targets.FallStaysNearScreen | laba6/deob.py:616-624 | after a frame a FallingTarget is never more than 40 below the screen; it is put back at 40 above the top, at rest, exactly when its step would take it lower |
| Targets.TargetStepProperties | laba6/deob.py:551-624 | a plain target does not move; a CircularTarget is at distance 20 from its origin; a MovingTarget keeps or swaps its path ends and, with a frame of at most two seconds, stays on its path; a FallingTarget keeps its column and is never more than 40 below the screen |
| Targets.Target.constructor | laba6/deob.py:536-549 | position from the two `rnd` draws in 600..780 and 300..550, origin at that position, radius drawn from the difficulty's range (40 for a FallingTarget, lines 611-614, which also starts with speed 9.8), red; a MovingTarget's far end is offset by its two `rnd(-40, 40)` draws (lines 583-589) |
| Targets.Target.Move | laba6/deob.py:551-555 | the new state is one step of the target's kind: none for Target, the circle point for CircularTarget (lines 573-576), a glide with half the frame time for MovingTarget (lines 591-604), a fall for FallingTarget (lines 616-624) |
| Targets.CircleRadius | laba6/deob.py:573-576 | a CircularTarget stands at distance 20 from its origin whenever cosine and sine are those of one angle |
| GameRound.MakeTargets | laba6/deob.py:739-743 | one fresh target per chosen kind, in order, no target listed twice, each at the position its constructor drew |
| GameRound.Bomb.constructor | laba6/deob.py:708 | the bomb hangs at (400, 10) and is black (lines 642-647) |
| GameRound.Bomb.Drop | laba6/deob.py:649-660 | exactly one fresh FallingTarget joins the end of the game's targets, at 20 right of and 35 below the bomb, radius 40 and speed 9.8, its origin where its constructor drew it; score and active gun unchanged |
| GameRound.DropTimerBounded | laba6/deob.py:833-837 | with frames of at most `longest` seconds the bomb timer stays below five seconds plus one frame; it restarts on a drop and only grows between drops |
| GameRound.DropsAreSpaced | laba6/deob.py:833-837 | between two drops the timer is the sum of the frame times, so with frames of at most `longest` seconds at least 5 / `longest` frames separate two drops |
| GameRound.TimerAfterAppend | laba6/deob.py:833-837 | the timer after one more frame is that frame's update of the timer so far |
| GameRound.StepGuns | laba6/deob.py:840-841 | each gun after its own `move`, everything but its position unchanged |
| GameRound.MoveGunListed | laba6/deob.py:841 | moving one gun of a list without repetitions changes that gun's position only |
| GameRound.Returned | laba6/deob.py:847 | one ball type put back per ball handed back |
| GameRound.ReturnedAppend | laba6/deob.py:847 | each handed-back ball's type goes in front of those handed back before it |
| GameRound.HandedNext | laba6/deob.py:846-847 | handing back one more ball removes it from the live list and puts its type at the head of the queue |
| GameRound.TookNext | laba6/deob.py:842-848 | a gun without control that a live ball hits takes control: the takers stay in list order, the ball recorded is the first live one to hit it, and the guns before it keep their record |
| GameRound.TookPass | laba6/deob.py:842-845 | a gun that has control, or that no live ball hits, is recorded as declining, and the hand-overs so far are kept |
| GameRound.TargetStates | laba6/deob.py:851-852 | the states of a target list, position by position |
| GameRound.StepAll | laba6/deob.py:852 | each target after its own `move` |
| GameRound.Visited | laba6/deob.py:851-856 | after the loop has visited some targets, a passed-over target keeps its state, a visited one has taken its step and the rest are untouched |
| GameRound.VisitedNext | laba6/deob.py:851-856 | one more visit gives that target its step and nothing else |
| GameRound.MoveTargetListed | laba6/deob.py:852 | moving one target of a list without repetitions changes only that target, by one step of its kind |
| GameRound.PlacedGun | laba6/deob.py:710-719 | a fresh idle gun of the chosen kind on the shared handler, moved to the drawn place and, for a MoveableGun, on its path |
| GameRound.GameState.constructor | laba6/deob.py:697-724 | no points, no targets, an empty shared BallHandler, the bomb at (400, 10), three fresh idle guns of the chosen kinds sharing the handler, the first two moved to their drawn places and the last one active at (20, 450) |
| GameRound.GameState.HitTarget | laba6/deob.py:726-732 | a point is scored and the shot count reset, then `targets.remove`: the first occurrence goes, and a target not in the list gives ValueError after the point is counted |
| GameRound.GameState.NewRound | laba6/deob.py:734-743 | the shot count is reset and the targets are exactly `difficulty.targets` fresh targets of allowed kinds at their drawn positions; score, balls and active gun unchanged |
| GameRound.GameState.DropTick | laba6/deob.py:833-837 | the returned timer is the frame's timer update; once five seconds have gathered, one fresh FallingTarget is appended and nothing else changes in the targets, otherwise the targets are unchanged |
| GameRound.GameState.ActivateGuns | laba6/deob.py:772-778 | afterwards exactly the active gun is switched on, and nothing else about any gun changes |
| GameRound.GameState.SwapControl | laba6/deob.py:840-848 | every gun has moved once; the takers are in list order, each did not hold control at its turn and took it with the first ball then live to hit it; every other gun held control at its turn or no ball then live hit it; the live list is the old one with those balls removed in turn, their types went to the head of the queue, the last one first, and the last taker holds control, or the old active gun when there was none |
| GameRound.GameState.SwapEnd | laba6/deob.py:840-848 | once every gun had its turn, the loop bookkeeping gives the postconditions of the swap |
| GameRound.GameState.GunTurn | laba6/deob.py:840-848 | one gun's turn keeps the swap's bookkeeping: the gun moves, and then either takes control or is recorded as declining |
| GameRound.GameState.ControlTurn | laba6/deob.py:842-848 | the active gun, or a gun no live ball hits, changes nothing; any other gun takes control: one more ball leaves the list, its type goes to the front of the queue, and the gun is appended to the takers |
| GameRound.GameState.ContestControl | laba6/deob.py:844-848 | for a gun without control, `hittest` decides: the first live ball that hits it is handed back and the gun takes control, or nothing changes when none hits |
| GameRound.GameState.TakeControl | laba6/deob.py:844-848 | nothing changes exactly when no live ball hits the gun; otherwise the ball taken is the first in the live list to hit it, it leaves the list, its type goes to the head of the queue and the gun takes control |
| GameRound.GameState.HitTargets | laba6/deob.py:850-856 | the list keeps the targets not hit, in order; removing a hit target from the list being iterated makes the loop pass over the next target, which neither moves nor is tested; every removed target was hit by the first ball live at its visit to hit it, and that ball is gone; no ball live at its visit hits a target that moved and stayed; the live list is the old one less the hitting balls, in turn; every hit scores one point, costs one ball and resets the shot count |
| GameRound.GameState.ScoreLoop | laba6/deob.py:851-856 | the loop over the targets ends with the iterator past the list and the bookkeeping kept |
| GameRound.GameState.ScoreEnd | laba6/deob.py:851-856 | once the iterator has left the list, every target has its fate, the list is the kept targets, and the hits are those of the first ball live at each visit |
| GameRound.GameState.Score | laba6/deob.py:854-856 | `hit_target` then `remove_ball`: the target at the iterator and the ball leave their lists, a point is scored and the shot count reset |
| GameRound.GameState.TargetTurn | laba6/deob.py:851-856 | one target's turn keeps the loop's bookkeeping and settles at least one more fate |
| GameRound.GameState.HitTurn | laba6/deob.py:853-856 | after a target moved, it either stays (no live ball hits it) or is removed with the ball that hit it, the next target then being passed over; points, list and ball record stay consistent |
| GameRound.GameState.ScoreHit | laba6/deob.py:853-856 | the first live ball to hit the target removes it and leaves the live list, and the next target is passed over |
| GameRound.GameState.PassTarget | laba6/deob.py:853-854 | a target no live ball hits keeps its place and the iterator moves on |
| GameRound.RecordPassed | laba6/deob.py:851-854 | a target that no live ball hits is recorded as moved and kept, and a target passed over after a removal as skipped; the live list is unchanged |
| GameRound.RecordRemoved | laba6/deob.py:853-856 | a hit target is recorded as removed by the first live ball that hit it, which has left the live list |
| TkCannon.FlyLeftOfWall | laba7/lab7.py:44-46 | after every `move` the ball is at x <= 780; a ball past 780 is put at 779 with half its horizontal speed, reversed |
| TkCannon.FloorFrame | laba7/lab7.py:33-43 | on the floor, `live` drops by exactly one while it is not negative and stays otherwise; the ball bounces exactly when its squared speed is above 10, and then it is back at 499 with a quarter of that squared speed |
| TkCannon.LiveBounded | laba7/lab7.py:38-43 | `live` never grows and never goes below -1 |
| TkCannon.HalvedSpeed | laba7/lab7.py:44-46 | the wall rebound does not raise the squared speed |
| TkCannon.RestingFrame | laba7/lab7.py:33-43 | a ball resting on the floor stays at rest and its `live` counts down by one per frame |
| TkCannon.RestingBallIsSpent | laba7/lab7.py:33-43 | a resting ball with `live` = n is spent after n + 1 more frames, so its next `move` takes it out of the global list |
| TkCannon.BoxHitSymmetric | laba7/lab7.py:48-56 | the box hit test does not depend on which object asks |
| TkCannon.SquareBelow | laba7/lab7.py:53 | a coordinate difference of at most R in size has a square of at most R squared |
| TkCannon.SquareAbove | laba7/lab7.py:53 | a coordinate difference larger than R >= 0 in size has a square above R squared |
| TkCannon.BoxHitVersusCircles | laba7/lab7.py:48-56 | overlapping circles always pass the box test, and centres that pass it are at most sqrt(2) times the sum of radii apart |
| TkCannon.Arena.constructor | laba7/lab7.py:221 | the global ball list starts empty |
| TkCannon.Ball.constructor | laba7/lab7.py:12-21 | the ball is at (x, y) with the given speed and `live` 30; its radius is 10, 15 for HeavyBall (lines 58-63) and 8 for FastBall (lines 65-70) |
| TkCannon.Ball.Move | laba7/lab7.py:26-46 | one frame of flight with fall 1.2 (1.5 for FastBall, lines 72-92); a spent ball on the floor is removed from the global list (first occurrence) when it is there, and the gun's own list is not touched |
| TkCannon.WanderKeepsSpeed | laba7/lab7.py:145-151 | a gun moves by its speed, keeps the size of each speed component and reverses it exactly when the new position is outside the 800 x 600 field on that axis; a gun at most one step outside the field stays so |
| TkCannon.ChargeBounded | laba7/lab7.py:137-140 | the charge stays in [10, 100] and grows by one exactly while charging below 100 |
| TkCannon.Gun.constructor | laba7/lab7.py:95-106 | charge 10, not charging, angle 1, at (x, y) with the two `randint(-2, 2)` speed draws, plain balls, no balls fired |
| TkCannon.Gun.Fire2Start | laba7/lab7.py:108-109 | charging starts; nothing else changes |
| TkCannon.Gun.Fire2End | laba7/lab7.py:111-123 | whether or not the gun was charging: a ball of the selected class at the gun, five larger than its class makes it, with speed `f2_power` along the aim, is appended to the gun's list and to the global list, and the gun goes back to idle charge 10 |
| TkCannon.Gun.Targetting | laba7/lab7.py:125-135 | the gun turns to the event's aim when there is an event; otherwise the angle stays |
| TkCannon.Gun.PowerUp | laba7/lab7.py:137-143 | the charge takes one `power_up` step: one more while charging below 100 |
| TkCannon.Gun.Move | laba7/lab7.py:145-152 | the gun's position and speed take one wander step |
| TkCannon.Gun.ChangeBallType | laba7/lab7.py:154-155 | the selected ball class becomes the given one; nothing else changes |
| TkCannon.FiredRadius | laba7/lab7.py:112-113 | a fired ball is 15, 20 or 13 across Ball, HeavyBall and FastBall |
| TkCannon.Target.constructor | laba7/lab7.py:158-171 | no points, alive, at the drawn place with radius 20; a Bomb (lines 195-202) is at the top at its own draw with radius 15 and speed 5 |
| TkCannon.Target.NewTarget | laba7/lab7.py:165-171 | a new place drawn in 50..780 x 50..500 with radius 20; score and liveness unchanged |
| TkCannon.Target.Hit | laba7/lab7.py:173-176 | the score grows by the given points; place and liveness unchanged |
| TkCannon.Target.Move | laba7/lab7.py:178-209 | a StaticTarget stays; a MovingTarget takes the drawn step of 5 along one axis (lines 186-192); a bomb falls by its speed and, once below 600, is placed again by `new_target` (lines 204-209) |
| TkCannon.DirectionsAreUnitSteps | laba7/lab7.py:187-190 | every step of a MovingTarget is 5 along exactly one axis |
| TkCannon.Strike | laba7/lab7.py:254-256 | a live target that the ball hits dies and scores one point; otherwise its liveness and score are unchanged |
| TkCannon.MoveVolley | laba7/lab7.py:251-253 | every ball of the gun takes one frame; spent balls leave the global list only, so a spent ball stays in its gun's list; the global list is the old one with the spent balls filtered out, the others keeping their order |
| TkCannon.States | laba7/lab7.py:251-253 | the states of a ball list, position by position |
| TkCannon.VolleyTurn | laba7/lab7.py:252-253 | one ball's move changes that ball only and removes it from the global list exactly when it was spent |
| TkCannonDraft.Arena.constructor | laba6/pushka.py:119-120 | the global ball list starts empty and the shot counter at 0 |
| TkCannonDraft.Ball.Bare | laba6/pushka.py:12-13 | `ball()` on a class without `__init__` creates an object without attributes |
| TkCannonDraft.Ball.constructor | laba6/pushka.py:13-21 | `init`: radius 10, at (x, y), at rest, `live` 30 |
| TkCannonDraft.Ball.Move | laba6/pushka.py:24-43 | one frame as in laba7/lab7.py; a spent ball removes itself from the global list without checking it is there, so a spent ball not in the list raises ValueError after the bounce and before the wall clamp |
| TkCannonDraft.Gun.constructor | laba6/pushka.py:53-57 | `init`: charge 10, not charging, angle 1 |
| TkCannonDraft.Gun.Fire2Start | laba6/pushka.py:58-59 | charging starts; charge and angle unchanged |
| TkCannonDraft.Gun.Fire2EndAsWritten | laba6/pushka.py:60-64 | as written, the shot is counted and then reading the radius of the attribute-less new ball raises AttributeError: no release ever fires a ball |
| TkCannonDraft.Gun.Fire2End | laba6/pushka.py:60-70 | with `init` run on the new ball: the shot is counted; a release straight above or below the muzzle divides by zero and fires nothing; otherwise a fresh ball of radius 15 leaves the muzzle with speed `f2_power` along the aim, joins the global list, and the gun goes back to idle charge 10 |
| TkCannonDraft.Gun.Fire2Launch | laba6/pushka.py:64-70 | from `new_ball.r += 5` on: the ZeroDivisionError case and the launch, as for `Fire2End` |
| TkCannonDraft.Gun.Targetting | laba6/pushka.py:71-78 | with an event the gun turns to the aim measured from (20, 450); an event straight above or below that point raises ZeroDivisionError and leaves the angle |
| TkCannonDraft.Gun.PowerUp | laba6/pushka.py:79-85 | one more unit of charge while charging and below 100 |
| TkCannonDraft.Target.constructor | laba6/pushka.py:90-95 | `init`: no points, placed at the drawn point with radius `round(2, 50)` = 2, alive |
| TkCannonDraft.Target.NewTarget | laba6/pushka.py:96-102 | a new place drawn in 50..780 x 50..500 with radius 2; score and liveness unchanged |
| TkCannonDraft.Target.Hit | laba6/pushka.py:103-106 | the score grows by the given points |
| TkCannonDraft.Target.RandMv | laba6/pushka.py:107-113 | the drawn step of 5 along one axis |
| MazeEscape.Starters | lab3/RK1.py:8-11 | writes 'O' at row 2, column 4 and returns that position, leaving every other cell as it was; a maze too small for that position raises IndexError |
| MazeEscape.SearchForPath | lab3/RK1.py:13-33 | `(True, distance, (x + 1, y + 1))` names a free border cell other than the start that is reachable in `distance` moves, with no such cell closer; `(False, None, None)` is returned exactly when no such cell is reachable in any number of moves |
| MazeEscape.Expand | lab3/RK1.py:28-31 | the queue gains, in direction order, one entry at distance + 1 for each in-grid, free, unvisited neighbour |
| MazeEscape.NeighbourIsStep | lab3/RK1.py:28-30 | each move in `directions` to a free cell is a one-move step |
| MazeEscape.ReachMono | lab3/RK1.py:13-33 | cells reachable within i moves are reachable within any j >= i moves |
| MazeEscape.ReachInUniverse | lab3/RK1.py:13-33 | a reachable cell is the start or a free cell of the grid |
| MazeEscape.ClosedHoldsReach | lab3/RK1.py:13-33 | a set of cells holding the start and closed under moves holds every reachable cell |
| MazeEscape.ExpansionSound | lab3/RK1.py:28-31 | every entry the expansion appends is a free, unvisited neighbour at distance + 1 |
| MazeEscape.ExpansionComplete | lab3/RK1.py:28-31 | every free, unvisited neighbour is appended |
| MazeEscape.StartInv | lab3/RK1.py:14-15 | the search invariant holds for the queue `[(start_x, start_y, 0)]` and no visited cell |
| MazeEscape.NextLevel | lab3/RK1.py:18-19 | when only entries one level further remain, every cell within the current level is visited and the search moves on a level |
| MazeEscape.SkipKeepsInv | lab3/RK1.py:19-21 | popping an entry whose cell is already visited keeps the invariant |
| MazeEscape.QueueTail | lab3/RK1.py:19 | dropping the head of the queue keeps the queue's ordering and reachability facts |
| MazeEscape.FoundIsShortest | lab3/RK1.py:24-26 | the first exit popped is reachable in its recorded distance and no exit is closer |
| MazeEscape.VisitKeepsInv | lab3/RK1.py:22-31 | visiting and expanding the popped cell keeps the invariant and shrinks the set of unvisited cells (termination) |
| MazeEscape.ExpandKeepsInv | lab3/RK1.py:22-31 | visiting and expanding the popped cell keeps the invariant |
| MazeEscape.ExpandQueue | lab3/RK1.py:19-31 | popping the head and appending its expansion keeps distances ordered and cells reachable within their distance |
| MazeEscape.ExpansionReach | lab3/RK1.py:28-31 | the expansion of a cell reachable within d moves queues cells reachable within d + 1 |
| MazeEscape.ExpandQueueEntries | lab3/RK1.py:19-31 | every entry of the new queue is at the current level or the next, within reach of its distance |
| MazeEscape.ExpandQueueOrder | lab3/RK1.py:19-31 | in the new queue, entries at the current level still come before those at the next |
| MazeEscape.PopCells | lab3/RK1.py:19-31 | popping the head loses at most its own cell from the queue; appending loses nothing |
| MazeEscape.ExpandCloses | lab3/RK1.py:28-31 | after the expansion every free neighbour of the cell is visited or queued |
| MazeEscape.ClosedIsStepClosed | lab3/RK1.py:18-33 | with an empty queue, the visited cells are closed under moves |
| MazeEscape.EmptyMeansUnreachable | lab3/RK1.py:18-33 | an exhausted queue means every reachable cell was visited, so no exit is reachable in any number of moves |
| MazeEscape.PathReach | lab3/RK1.py:13-33 | a cell is within k moves exactly when some walk of at most k moves through free cells ends there |
| MazeEscape.ReachHasWalk | lab3/RK1.py:13-33 | a cell within k moves ends a walk of at most k moves |
| MazeEscape.StepHasWalk | lab3/RK1.py:28-31 | a cell one move beyond those within k moves ends a walk of at most k + 1 moves |
| MazeEscape.WalkReaches | lab3/RK1.py:13-33 | the end of a walk of at most k moves is within k moves |
| GasBox.ReflectNegatesIffLeaving | lab2/5.py:42-45 | a non-zero speed component is negated exactly when the next step along that axis would leave the inner box |
| GasBox.StepKeepsSpeedMagnitude | lab2/5.py:41-48 | a step keeps the size of both speed components and moves the particle by its new speed |
| GasBox.AxisStaysInRange | lab2/5.py:42-48 | with speeds of at most 10 and a box at least 20 wide, a coordinate inside the box stays inside after the test and the move |
| GasBox.StepStaysInBox | lab2/5.py:41-48 | a particle inside the box with speeds from `randint(-10, 10)` stays inside, with speeds still in range |
| GasBox.StepNStaysInBox | lab2/5.py:40-48 | after any number of steps the particle is still inside the box and its speed components keep their sizes |
| GasBox.Simulate | lab2/5.py:40-48 | after `steps` rounds each particle's coordinates and speeds are those of `steps` single steps from where it started |
| GasBox.MoveRound | lab2/5.py:41-48 | one round moves every particle, in index order, by exactly one step, updating both lists in place |
| GasBox.Run | lab2/5.py:27-48 | from the drawn positions (inside the box, lines 34-37) and speeds (lines 29-30), every particle ends in the state of `steps` steps, inside the box, with the sizes of its drawn speed components |
| CubeUnfolding.VerticesAreTheCube | practice/cube.py:8 | the vertex list is the 8 triples over {0, 1}, each once, in lexicographic order |
| CubeUnfolding.Row | practice/cube.py:13 | the pairs `combinations` yields with one vertex first: one per later vertex |
| CubeUnfolding.PairsMembership | practice/cube.py:13 | `combinations(vs, 2)` yields exactly the pairs (vs[i], vs[j]) with i < j |
| CubeUnfolding.PairsDistinct | practice/cube.py:13 | over a list without repeats it yields no pair twice |
| CubeUnfolding.AdjacentMembership | practice/cube.py:11-15 | the comprehension's filter keeps exactly the pairs at Manhattan distance 1 |
| CubeUnfolding.AdjacentDistinct | practice/cube.py:11-15 | filtering keeps a list without repeats without repeats |
| CubeUnfolding.AdjacentPairs | practice/cube.py:11-15 | over a sorted vertex list the edges are its pairs at distance 1, earlier vertex first, each once |
| CubeUnfolding.EdgesAreTheCubeEdges | practice/cube.py:11-15 | the edge list holds exactly the pairs of cube vertices at distance 1, each once, with the lexicographically smaller vertex first |
| CubeUnfolding.FirstNew | practice/cube.py:29-38 | the inner loop finds a neighbour across an edge that is not yet visited, or, when it finds none, every neighbour is visited |
| CubeUnfolding.ExtendPath | practice/cube.py:34-37 | appending a new vertex that shares an edge with the last one extends a walk |
| CubeUnfolding.WalkShape | practice/cube.py:25-40 | a walk that finishes returns six distinct vertices extending the walk so far, each sharing an edge with the one before it |
| CubeUnfolding.EdgeFlipsParity | practice/cube.py:11-15 | every cube edge joins vertices of different parity of x + y + z |
| CubeUnfolding.PathParity | practice/cube.py:25-40 | along a walk the parity alternates |
| CubeUnfolding.FlipIsNeighbour | practice/cube.py:11-15 | flipping one coordinate of a cube vertex gives a cube vertex at distance 1 |
| CubeUnfolding.NeighbourEdge | practice/cube.py:11-15 | two cube vertices at distance 1 form a cube edge, read one way or the other |
| CubeUnfolding.NeighboursLinked | practice/cube.py:11-15 | any two cube vertices at distance 1 share an edge of the list |
| CubeUnfolding.FlipLinked | practice/cube.py:11-15 | each of the three neighbours of a cube vertex shares an edge of the list with it |
| CubeUnfolding.OtherParityPositions | practice/cube.py:25-40 | on a walk of at most five vertices only the second and fourth from the end have the other parity than the last |
| CubeUnfolding.NeverStuck | practice/cube.py:25-38 | from a cube vertex with fewer than six faces collected, the inner loop always finds a new neighbour, so `stack.pop()` never meets an empty stack |
| CubeUnfolding.WalkStep | practice/cube.py:25-38 | one round of the outer loop from a cube vertex pushes a new cube vertex that extends the walk |
| CubeUnfolding.WalkFromCubeVertex | practice/cube.py:25-40 | from a cube vertex the walk always collects its six faces |
| CubeUnfolding.OffCube | practice/cube.py:25-31 | from a start outside the cube no edge contains it, so the second `stack.pop()` raises IndexError |
| CubeUnfolding.WalkCorrect | practice/cube.py:18-40 | over any list of the cube's edges the walk succeeds exactly from a cube vertex, otherwise raises IndexError; it then returns six distinct cube vertices starting with the start, each at distance 1 from the one before it |
| CubeUnfolding.PathOnCube | practice/cube.py:25-40 | every step of a walk over the cube's edges joins two cube vertices at distance 1 |
| CubeUnfolding.LinkedIsCubeStep | practice/cube.py:29-31 | a vertex sharing a listed edge with another is a cube vertex at distance 1 from it |
| CubeUnfolding.UnfoldCorrect | practice/cube.py:18-40 | `generate_unfolding(start)` over the module's edge list: the same as `WalkCorrect` |
| CubeUnfolding.GenerateUnfolding | practice/cube.py:18-40 | the loop returns the unfolding the walk defines: IndexError from a start outside the cube, otherwise six distinct vertices beginning with the start |
| CubeUnfolding.Generate | practice/cube.py:20-40 | the `while` loop over any edge list returns the walk's result |
| CubeUnfolding.ScanEdges | practice/cube.py:29-38 | the `for edge in edges` loop finds the first edge at `current` whose other end is not visited |
| RpgCommon.CursorStaysOnOptions | BetaTest/classes.py:29-34 | on a menu with options, UP and DOWN keep the cursor on an option and move it by at most one, UP never down and DOWN never up (AlphaTest/AlphaTest.py:26-31 is the same) |
| RpgCommon.DownsReachLast | BetaTest/classes.py:33-34 | enough presses of DOWN reach the last option and the cursor stays there: `min` clamps at the end |
| RpgCommon.Menu.constructor | BetaTest/classes.py:15-19 | a new menu holds the given options with the first one selected |
| RpgCommon.Menu.Update | BetaTest/classes.py:29-37 | UP and DOWN move the cursor as `max`/`min` clamp it, RETURN answers the selected label or the IndexError of an empty list, every other event answers None; the cursor stays valid (AlphaTest/AlphaTest.py:26-34 is the same) |
| RpgCommon.Game.constructor | BetaTest/classes.py:89-90 | a new game is in the initial scene with no damage bonus |
| RpgCommon.Game.UpdateScene | BetaTest/classes.py:92-95 | a different scene becomes current and adds exactly 10 to the bonus; the same scene changes nothing (AlphaTest/AlphaTest.py:81-84 is the same) |
| RpgCommon.Character.constructor | BetaTest/classes.py:134-138 | the player starts at the given position |
| RpgCommon.Character.Move | BetaTest/classes.py:143-148 | the player is shifted by exactly (dx, dy) |
| RpgCommon.AfterDamageAlive | BetaTest/classes.py:174-185 | after any hit the player's health is positive: the damage is taken exactly when that leaves some health, and otherwise the game over restores 1000 |
| RpgCommon.World.constructor | BetaTest/classes.py:181-184 | the script's globals start in the menu with no game running |
| RpgCommon.Health.constructor | BetaTest/classes.py:161 | a new health bar holds 1000 |
| RpgCommon.Health.ReduceHealth | BetaTest/classes.py:174-177 | health drops by the amount floored at 0; at 0 the game over sends the script to the menu, drops the game, re-arms the spawner and restores 1000; otherwise no global changes (AlphaTest/AlphaTest.py:159-162 is the same) |
| RpgCommon.Health.ResetGame | BetaTest/classes.py:179-185 | the scene becomes the menu, the game is dropped, the spawner is re-armed and health is 1000 again (AlphaTest/AlphaTest.py:164-170 is the same) |
| RpgCommon.ApproachCloses | BetaTest/classes.py:284-293 | an enemy's step leaves a coordinate equal to the player's alone and brings every other exactly one closer, so the larger gap shrinks by one and an enemy on the player stays put |
| RpgCommon.EnemyReachesTarget | BetaTest/classes.py:284-293 | an enemy walking toward a player who stands still reaches them within the larger coordinate gap in frames, and stays there |
| RpgCommon.Enemy.constructor | BetaTest/classes.py:273-279 | a new enemy stands at its start position with the default health 100 |
| RpgCommon.Enemy.Update | BetaTest/classes.py:284-293 | the enemy takes one step toward the target on each axis and its health is unchanged (AlphaTest/AlphaTest.py:269-278 is the same) |
| RpgCommon.CountNear | BetaTest/classes.py:244-249 | the number of positions near the target is at most their count and is 0 for a range that is not positive |
| RpgCommon.NoneNear | BetaTest/classes.py:244-249 | no position counts exactly when none of them is near the target |
| RpgCommon.Roster.constructor | BetaTest/classes.py:220 | the spawner's enemy list starts empty |
| RpgCommon.EnemySpawner.constructor | BetaTest/classes.py:218-223 | a new spawner shares the list, remembers the number to spawn and has not spawned |
| RpgCommon.EnemySpawner.SpawnEnemies | BetaTest/classes.py:225-231 | when not spawned yet, exactly `num_enemies` new enemies are appended at the drawn positions with health 100 and the old list is kept as a prefix; when already spawned the list is unchanged; either way it is marked spawned (AlphaTest/AlphaTest.py:210-216 is the same) |
| RpgCommon.EnemySpawner.ResetSpawn | BetaTest/classes.py:233-234 | the next spawn creates enemies again |
| RpgCommon.EnemySpawner.UpdateEnemies | BetaTest/classes.py:266-269 | every enemy in the list takes its step toward the target and keeps its health, since `enemies_active` is always truthy (AlphaTest/AlphaTest.py:251-254 is the same) |
| RpgCommon.EnemySpawner.CheckCollisions | BetaTest/classes.py:244-249 | the damage is 5 for every enemy strictly within range on both axes, so between 0 and 5 times the number of enemies (AlphaTest/AlphaTest.py:229-234 is the same) |
| RpgCommon.FirstNearestUnique | BetaTest/classes.py:194-203 | the nearest enemy is well defined: at most one position is the first of the least distance |
| RpgCommon.FirstNearestExists | BetaTest/classes.py:194-203 | a non-empty list always has a first nearest position |
| RpgCommon.Combat.constructor | BetaTest/classes.py:189-192 | the combat system holds the given player, enemy list and game |
| RpgCommon.Combat.ClosestIndex | BetaTest/classes.py:195-203 | the search answers nothing exactly for an empty list, and otherwise the first position of least distance to the player |
| RpgCommon.Combat.FindClosestEnemy | BetaTest/classes.py:194-203 | None exactly when there are no enemies, otherwise the enemy nearest the player, the first one on a tie (AlphaTest/AlphaTest.py:179-188 is the same) |
| RpgCommon.Combat.AttackClosestEnemy | BetaTest/classes.py:205-214 | with no enemies nothing happens; otherwise the nearest enemy loses 50 plus the game's bonus and leaves the list when its health is not positive, every other enemy keeps its health and every position is unchanged (AlphaTest/AlphaTest.py:190-199 is the same) |
| RpgBeta.Door.constructor | BetaTest/classes.py:358-362 | a new door leads from its scene to its target scene and is locked |
| RpgBeta.Door.Unlock | BetaTest/classes.py:364-366 | the door is unlocked |
| RpgBeta.Door.Lock | BetaTest/classes.py:368-370 | the door is locked |
| RpgBeta.Door.Interact | BetaTest/classes.py:372-380 | the target scene is answered exactly when the player touches the unlocked door from the scene it belongs to; a locked door never answers |
| RpgBeta.WavesRunOut | BetaTest/classes.py:611-619 | from a running fight at wave c, n cleared waves reach wave min(c + n, 5), and the fight is still on exactly while n <= 5 - c: the counter never passes five |
| RpgBeta.StaysEnded | BetaTest/classes.py:611-619 | once the fight has ended at wave five, more calls change nothing |
| RpgBeta.Gopnik.constructor | BetaTest/classes.py:595-601 | a new Gopnik guards its door with the fight off at wave 0 |
| RpgBeta.Gopnik.StartFight | BetaTest/classes.py:603-609 | the fight is on at wave one and the spawner has spawned: a first wave of `num_enemies` fresh enemies, at the drawn positions in order and with health 100, is appended unless the spawner had already spawned, in which case the list is unchanged |
| RpgBeta.Gopnik.ActivateNextWave | BetaTest/classes.py:611-619 | the wave counter and fight flag move as NextWave says; below five the next wave is spawned when the spawner was re-armed (`num_enemies` fresh enemies at the drawn positions with health 100, after the old list), at five nothing is spawned and the fight ends |
| RpgBeta.Gopnik.UnlockDoor | BetaTest/classes.py:638-642 | at wave five a Gopnik with a door leaves that door unlocked |
| RpgBeta.WaveDamage | BetaTest/classes.py:624-625 | the damage of a frame is between 0 and 5 per enemy, and 0 exactly when no enemy is within range 50 once it has stepped toward the player |
| RpgBeta.Gopnik.UpdateEnemies | BetaTest/classes.py:621-631 | with the fight off the health, the enemies, the world, the counter and the list are unchanged; during the fight every enemy steps toward the player keeping its health, the health is `AfterDamage` of the frame's damage when that is non-zero (a game over sends the script to the menu; otherwise the scene and the game flag are unchanged), an empty list calls the next wave, which below wave five fills the list with `num_enemies` fresh enemies at the drawn positions with health 100 when the spawner was re-armed and otherwise leaves it empty, and a non-empty list leaves the counter and the list as they are; the player is alive afterwards |
| RpgBeta.Gopnik.TakeHits | BetaTest/classes.py:625-627 | the damage is 5 per enemy within range 50, a non-zero damage leaves the health at `AfterDamage` and a zero one leaves it as it was, the player is alive, and only a game over changes the scene, the game flag and the spawner's spawned flag |
| RpgAlpha.Door.constructor | AlphaTest/AlphaTest.py:343-347 | a new door leads from its scene to its target scene and is locked |
| RpgAlpha.Door.Unlock | AlphaTest/AlphaTest.py:349-351 | the door is unlocked (SecurityDoor, lines 527-529, only adds a message) |
| RpgAlpha.Door.Interact | AlphaTest/AlphaTest.py:353-357 | the target scene is answered exactly when the player touches the unlocked door, whatever scene they are in |
| RpgAlpha.ExitDoor.constructor | AlphaTest/AlphaTest.py:531-534 | an exit door starts unlocked |
| RpgAlpha.ExitDoor.Unlock | AlphaTest/AlphaTest.py:349-351 | the inherited `unlock` leaves the exit door unlocked |
| RpgAlpha.ExitDoor.Interact | AlphaTest/AlphaTest.py:536-539 | the target scene is answered exactly on a collision, lock or no lock |
| SolarText.Split | lll/solar_input.py:27 | every token `split()` gives is non-empty and holds no whitespace |
| SolarText.TrimLeft | lll/solar_objects.py:40 | the leading half of `strip()`: the result is a suffix of the line, all that it drops is whitespace, and it does not start with whitespace |
| SolarText.TrimRight | lll/solar_objects.py:40 | the trailing half of `strip()`: the result is a prefix of the line, all that it drops is whitespace, and it does not end with whitespace |
| SolarText.SplitJoin | lll/solar_input.py:27 | splitting words joined by single spaces gives the words back |
| SolarText.SplitStrip | lll/solar_objects.py:40-42 | `line.strip().split()` gives the same tokens as `line.split()`, so each body's parser sees the tokens the reader saw |
| SolarText.StripBlank | lll/solar_input.py:25 | a line is empty after `strip()` exactly when it is all whitespace |
| SolarText.SplitBlank | lll/solar_input.py:25-28 | a line is all whitespace exactly when it has no tokens, so `parts[0]` exists on every line read past the blank test |
| SolarText.StripHead | lll/solar_objects.py:40-41 | the first character after `strip()` is the first character of the first token |
| SolarText.CaseInsensitive | lll/solar_input.py:28-39 | a word lowers to a lower-case type word exactly when it has the same length and each of its letters is that word's letter in either case |
| SolarText.IntIsFloat | lll/solar_objects.py:43-48 | a token `int` accepts, `float` accepts too, with the same value |
| SolarText.ParseShowInt | lll/solar_input.py:67 | `int(str(i)) == i`: the ID the writer formats reads back as the same integer |
| SolarObjects.UnskippedTokens | lll/solar_objects.py:40-42 | a line the parser does not pass over has tokens, the same ones before and after `strip()` |
| SolarObjects.Reached | lll/solar_objects.py:43-48 | the number of assignments that go through, at most six; each one counted had its token present and, for the numbers, well formed |
| SolarObjects.ParseBody | lll/solar_objects.py:42-48 | a complete record exactly when there are at least six tokens, the second and the last are integers and the fourth to sixth are numbers; the fields are those tokens; the failure is IndexError exactly when a token runs out before a malformed number is met |
| SolarObjects.RotationKeepsDistance | lll/solar_objects.py:97-111 | a rotation keeps the body's distance to the centre when the cosine and sine are those of an angle, and a body on its centre stays where it is |
| SolarObjects.CosmicBody.constructor | lll/solar_objects.py:65-70 | a new body of the given class has no fields set yet and no V_tg |
| SolarObjects.CosmicBody.ParseCosmicBodyParameters | lll/solar_objects.py:26-48 | a blank or comment line changes nothing; otherwise the fields are assigned from the tokens in order up to the first failing one, and the result is the exception ParseBody names or success; V_tg is untouched (`parse_star_parameters`, lines 72-73, only calls it) |
| SolarObjects.CosmicBody.AssignFields | lll/solar_objects.py:43-48 | the six assignments in order stop at the first one that raises, leaving the earlier fields assigned, and the result agrees with ParseBody |
| SolarObjects.CosmicBody.ParsePlanetParameters | lll/solar_objects.py:82-87 | the body's fields as for a star, then V_tg from the seventh token: IndexError when it is missing, ValueError when it is not a number, and V_tg unchanged on any failure (`parse_satelite_parameters`, lines 117-118, only calls it) |
| SolarObjects.CosmicBody.RotatePlanetAround | lll/solar_objects.py:89-111 | the body turns about the centre as it stood before the call and takes the orbital speed as V_tg; a body on its centre stays; no other field changes; the TypeError of a negative-mass centre is under Left out |
| SolarObjects.CosmicBody.RotateSateliteAround | lll/solar_objects.py:120-136 | the same turn, with V_tg left as it was; the TypeError of a negative-mass centre is under Left out |
| SolarInput.KindOf | lll/solar_input.py:28-45 | the class is Star, Planet or Satelite exactly when the lowered type word is "star", "planet" or "satelite", and none otherwise |
| SolarInput.DecodeTokens | lll/solar_input.py:27-45 | a last token that is not an integer raises ValueError whatever the type word; an unknown type word adds nothing; a known one adds a body whose fields are the parsed tokens, the file ID for a star and 11 times it for a planet or satellite, with V_tg exactly for those two; a field that fails to parse raises its exception |
| SolarInput.DecodeAppend | lll/solar_input.py:22-47 | reading goes line by line: the bodies of a file are those of its first part followed by those of the rest, in file order, and an exception in the first part is the one raised |
| SolarInput.QuietLine | lll/solar_input.py:24-45 | a line that gives nothing can be taken out of the file without changing what is read |
| SolarInput.PassedLineAddsNothing | lll/solar_input.py:25-26 | a blank or comment line adds no object wherever it stands |
| SolarInput.StopsAtError | lll/solar_input.py:22-47 | an exception in the first lines is the result of the whole file |
| SolarInput.ParsedLine | lll/solar_input.py:25-32 | a line the reader does not pass over has tokens, and when its first word is a type word the body's parser does not pass over it either |
| SolarInput.ReadSpaceObjects | lll/solar_input.py:7-47 | the objects read are new, distinct and in file order, and their records are exactly what Decode gives; otherwise the exception of the first bad line |
| SolarInput.ReadStep | lll/solar_input.py:24-45 | one round of the loop extends the objects as Decode extends the records: the new body appended, nothing for a quiet line, or the line's exception |
| SolarInput.ReadLine | lll/solar_input.py:25-45 | a passed line gives nothing; any other gives what its tokens decode to, with a new object for a body |
| SolarInput.ReadTokens | lll/solar_input.py:27-45 | the tokens decide as DecodeTokens says: the same exception, nothing for an unknown word, or a new object with the decoded record |
| SolarInput.TokensDecoded | lll/solar_input.py:29-43 | the tokens of a known type word whose body parses decode to that body, its ID raised by ten times the file ID for a planet or satellite and not for a star |
| SolarInput.NewBody | lll/solar_input.py:31-41 | a new body of the class, parsed by its own parser: its record is the decoded one, or the parser's exception is the result |
| SolarInput.WriterBranch | lll/solar_input.py:62-67 | planets and satellites both take the Planet branch and stars the Star branch; the satellite branch is never taken |
| SolarInput.WriteSpaceObjects | lll/solar_input.py:49-67 | each star writes its R, colour, mass and position in list order; the first planet or satellite stops the writing with AttributeError, since no body has `Vx`; the writing succeeds exactly when every object is a star |
| SolarModel.RunAppend | lll/solar_model.py:20-29 | doing two lists of rotations one after the other is doing their concatenation |
| SolarModel.Untouched | lll/solar_model.py:20-29 | a body that no rotation moves keeps its position and V_tg |
| SolarModel.StepMovesOnlyMatched | lll/solar_model.py:20-29 | a body whose ID is 11 times no star's, and, for a satellite, 11 times no star-orbiting planet's, keeps its position and V_tg through the step; stars among them |
| SolarModel.StarEventsSound | lll/solar_model.py:20-29 | every rotation of the step turns a planet-class body about a star it orbits, or a satellite about a planet-class body it orbits that itself orbits a star |
| SolarModel.MatchedAreTurned | lll/solar_model.py:20-29 | every planet-class body whose ID is 11 times a star's is turned about that star, and every satellite whose ID is 11 times that body's is turned about it right after |
| SolarModel.RecalculatePositions | lll/solar_model.py:9-29 | the bodies end as the rotations of the schedule leave them, one after the other, in loop order; no class, ID or mass changes; the stop at a negative-mass centre's TypeError is under Left out |
| SolarModel.TurnStars | lll/solar_model.py:20-29 | the outer loop does the whole schedule from the initial positions |
| SolarModel.TurnStar | lll/solar_model.py:20-22 | the outer loop's body adds the star's round when the body is a star, and nothing otherwise |
| SolarModel.TurnAboutStar | lll/solar_model.py:22-29 | the middle loop for a star does the rotations of its planets and their satellites, in list order |
| SolarModel.PlanetRound | lll/solar_model.py:23-29 | one round of the middle loop adds a planet's rotation and its satellites' exactly when the body is planet-class with 11 times the star's ID |
| SolarModel.TurnPlanet | lll/solar_model.py:24-29 | a matched planet turns about the star, then its satellites about it where it now stands |
| SolarModel.TurnSatellites | lll/solar_model.py:26-29 | the innermost loop does the rotations of the planet's satellites, in list order |
| SolarModel.SatelliteRound | lll/solar_model.py:27-29 | one round of the innermost loop adds a rotation exactly when the body is a satellite with 11 times the planet's ID |
| SolarModel.Turn | lll/solar_model.py:24-29 | one rotation changes only the turned body's state, as the rotation reads the centre at that moment, and no class, ID or mass |
| Orbits.Block | lab1/ex.9.py:44-50 | one pass appends 3 - len planets on an even orbit while the star has fewer than three, and one otherwise, all of them the planet of that orbit |
| Orbits.CreatedFromEmpty | lab1/ex.9.py:33-50 | on a star with no planets, k passes create k planets, plus one from the second pass on, and the j-th is the planet of orbit OrbitOf(j) |
| Orbits.StarPlanets | lab1/ex.9.py:33-50 | a star with n planets gets n for n < 2 and n + 1 otherwise; planet j sits on orbit 30 * (OrbitOf(j) + 1) at angle OrbitOf(j) * 360 / n, turns clockwise exactly on even orbits, and has a satellite exactly on even orbits of stars 0 and 2 |
| Orbits.SatellitesTurnClockwise | lab1/ex.9.py:37-47 | only clockwise planets carry satellites, and planets 1 and 2 of a star with two or more planets are alike, on the orbit of radius 60 |
| Orbits.Satellite.constructor | lab1/ex.9.py:98-105 | a new satellite circles the given planet position at the given radius, from angle 0 |
| Orbits.Satellite.Move | lab1/ex.9.py:114-121 | the satellite re-centres on the planet and advances exactly 5 degrees |
| Orbits.Planet.constructor | lab1/ex.9.py:54-76 | a planet holds what it was made with; it has a satellite exactly when asked, at a quarter of its orbit, starting at the planet's position |
| Orbits.Planet.Move | lab1/ex.9.py:83-94 | the planet moves one degree back when clockwise and forward otherwise; its satellite advances and re-centres on the planet's new position |
| Orbits.Star.constructor | lab1/ex.9.py:18-26 | a new star's planets are those create_planets makes on an empty list: none, one, or n + 1 for n of two or more, each new |
| Orbits.Star.CreatePlanets | lab1/ex.9.py:33-50 | the planets already in the list stay; the new ones, each new and well formed, are what Created gives |
| Orbits.Star.Pass | lab1/ex.9.py:34-50 | one pass of the loop extends the list as Created extends by one orbit index |
| Orbits.Star.AddOrbit | lab1/ex.9.py:44-50 | one pass appends as many new planets as Block says, all the planet of orbit i |

## Left out

- Random draws (`choice`, `randint`, `rnd`, `GameColors.get` with no name) are parameters of the members that use them. The model states the result for every drawn value, not the distribution.
- The aim angle (`math.atan2` in laba6/deob.py, `math.atan` in laba7/lab7.py and laba6/pushka.py) and its cosine and sine are parameters.
- The wall-clock angle of `CircularTarget` and its cosine and sine are parameters.
- The orbit trigonometry of lll/solar_objects.py and lab1/ex.9.py is a caller-supplied function (`Orbit`, `Place`).
- SolarObjects.CosmicBody.RotatePlanetAround: always turns the body. In Python, a centre of negative mass makes `(G * center_body.m / r) ** 0.5` a complex number (lll/solar_objects.py:102), and `math.cos(phi)` then raises TypeError (line 106) after `V_tg` already holds the complex value. The reader accepts such a mass, since `float` parses `-1.0`. This error path is not modelled: `Orbit` always answers with real numbers.
- SolarObjects.CosmicBody.RotateSateliteAround: always turns the body. In Python, a centre of negative mass raises TypeError at `math.cos(phi)` (lll/solar_objects.py:127-131); this error path is not modelled.
- SolarModel.RecalculatePositions: runs the whole rotation schedule. In Python the step stops with TypeError at the first rotation of a body not on its centre about a centre of negative mass, leaving the earlier rotations done; this error path is not modelled.
- Floating point is modelled as exact reals. Rounding, `inf` and `nan` are not modelled. math.sqrt(2) and math.sqrt(1.25) are decimal constants above 1, which is all the moves use.
- Square-root distance tests are written as comparisons of squares. A lemma ties each one to any non-negative root.
- Drawing is not modelled: pygame surfaces, fonts and `draw` methods, Tkinter canvas items, the turtle pictures of lab2/5.py, and the printing of lab3/RK1.py.
- Console output is not modelled: the rotation debug lines of lll/solar_objects.py:105 and :130, "Unknown space object" at lll/solar_input.py:45, and the messages of BetaTest/classes.py (for example :180, :211, :214, :374, :377, :379, :615, :618) and AlphaTest/AlphaTest.py (for example :165, :196, :199, :357). None of them changes state.
- The frame and event loops are not modelled as loops: the `while not finished` loop of laba6/deob.py, `new_game` in laba7/lab7.py and laba6/pushka.py, and the pygame event queues of the RPGs. Their per-frame rules are separate members.
- Of the main loop of laba6/deob.py (lines 760-858), these parts are not modelled: the dispatch of mouse events to the gun active at the frame's start, the closing `gun.power_up()` on that gun, and the `else` branch that starts a new round.
- Of the frame of laba7/lab7.py's `new_game` (lines 223-271), these parts are not modelled: the order in which targets, bombs and guns move, the on-screen messages, and the reset of dead targets at the end of the frame. The ball volley and the target strike are modelled.
- The `GameSettings` constants are module constants (screen size, gravity, FPS as the frame time parameter), and `GameDifficulty` is a datatype holding its target count, size range and allowed kinds.
- Colours of balls, guns and targets in laba7/lab7.py and laba6/pushka.py are not modelled.
- `pygame.Rect.colliderect` (walls and doors in the RPGs) is a boolean parameter, and the walls themselves are not modelled.
- The RPG NPC dialogues and quizzes read the console with `input()` and are not modelled.
- `EnemySpawner.activate_enemies` and `enemies_active` (BetaTest/classes.py:251-259) are not modelled: they call a method that does not exist, and the clash of the method and attribute names makes the later test always true.
- `Health.reset_game` rebinds the script's globals. Here the globals are the fields of a `World` object.
- The RPG menus' `pygame.quit()` and `sys.exit()` are not modelled.
- Opening, reading and writing the solar-system data file is not modelled. The reader takes the file as its lines, and the writer returns one record per line rather than its text.
- `SolarText.ParseInt` and `SolarText.ParseFloat` accept an optional sign and decimal digits, and for a float one decimal point. Python also accepts underscores, exponents, `inf` and `nan`, which are not modelled.
- Attributes that the solar bodies leave unset until a parser assigns them start at zero in the model.
- `SolarModel.RecalculatePositions` requires the bodies to be distinct objects, as the reader creates them. A list that holds one body twice is not modelled.
- `SolarModel.Apply` is total: a rotation event for a body outside the list changes nothing. The schedule only produces events for bodies in the list, so this never happens.
- lll/solar_model.py tests `ID / 11 == star.ID` with float division. The model writes this as `ID == 11 * star.ID`. The two agree for integer IDs of magnitude below 2^53. Larger IDs are not modelled. There the division rounds: ID = 11 * 2^55 + 1 matches star 2^55 in Python but not in the model. IDs past the float range raise OverflowError.
- `SolarText.IsSpace` (solar_text.dfy:14-17) is ASCII only. Python's `split` and `strip` also treat other Unicode whitespace, such as U+0085, U+00A0, U+2000 to U+200A and U+3000, as separators; those are not modelled.
- `SolarText.IsDigit` (solar_text.dfy:279-282) is ASCII only. Python's `int()` and `float()` also accept the other Unicode decimal digits; those are not modelled.
- From lab1/ex.9.py, `SolarSystemApp` is not modelled: `create_stars`, the `animate` timer, `toggle_orbits`, `draw_star` and `create_orbit`.
- The Tkinter window of practice/cube.py is not modelled.
- MazeEscape.SearchForPath takes the grid size from `lab`. lab3/RK1.py:13 passes `n` and `m` separately. A call whose `n` and `m` differ from the grid's size is not modelled.

## Findings

| source | as written | input that shows it | evidently intended | confidence | as-written member | corrected member |
|---|---|---|---|---|---|---|
| laba6/pushka.py:12-13 | the classes define `init` instead of `__init__` (also lines 53 and 90), so `ball()` makes an object without attributes and `fire2_end` reads its `r` (line 64), which raises AttributeError | as a script the program never gets this far: `new_game()` (line 171) raises AttributeError first, at `t1.new_target()` (line 124), which reads the missing `self.id` (line 101), before the release handler is bound (line 129). Once that is bound, any release of the mouse button shows it | `__init__`, so that the new ball has radius 10 and `fire2_end` launches it | not executed | TkCannonDraft.Gun.Fire2EndAsWritten | TkCannonDraft.Gun.Fire2End |
