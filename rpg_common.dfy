/**
 * The game logic that the two RPG prototypes, BetaTest/classes.py and
 * AlphaTest/AlphaTest.py, share line for line: the menu cursor, the scene
 * bonus, the player's health with its game-over reset, the enemies that
 * walk toward the player, the spawner that creates them once per reset,
 * and the attack on the nearest enemy.
 *
 * Drawing, images, fonts and the pygame event queue are not modelled; the
 * `random.randint` spawn positions are parameters.
 */
module RpgCommon {
  import opened Wrappers

  /** The keys a menu reacts to; every other key is OtherKey. */
  datatype Key = Up | Down | Return | OtherKey

  /** A pygame event: a key press, or anything else. */
  datatype Event = KeyPress(key: Key) | OtherEvent

  function Max(a: int, b: int): int
  {
    if a >= b then a else b
  }

  function Min(a: int, b: int): int
  {
    if a <= b then a else b
  }

  function Abs(a: int): nat
  {
    if a < 0 then -a else a
  }

  /** Where a key moves the cursor of a menu with n options. */
  function Cursor(n: int, selected: int, k: Key): int
  {
    match k
    case Up => Max(0, selected - 1)
    case Down => Min(n - 1, selected + 1)
    case _ => selected
  }

  /** On a menu with options, the cursor stays on an option and moves by at most one. */
  lemma CursorStaysOnOptions(n: int, selected: int, k: Key)
    requires 0 <= selected < n
    ensures 0 <= Cursor(n, selected, k) < n
    ensures -1 <= Cursor(n, selected, k) - selected <= 1
    ensures k == Up ==> Cursor(n, selected, k) <= selected
    ensures k == Down ==> Cursor(n, selected, k) >= selected
  {
  }

  /** `n - 1` presses of DOWN from the top reach the last option, and the cursor stops there. */
  function Downs(n: int, selected: int, presses: nat): int
    decreases presses
  {
    if presses == 0 then selected else Downs(n, Cursor(n, selected, Down), presses - 1)
  }

  lemma {:induction false} DownsReachLast(n: int, selected: int, presses: nat)
    requires 0 <= selected < n && presses >= n - 1 - selected
    ensures Downs(n, selected, presses) == n - 1
    decreases presses
  {
    if presses > 0 {
      DownsReachLast(n, Cursor(n, selected, Down), presses - 1);
    }
  }

  /** `BaseMenu`: a list of option labels and the selected one. */
  class Menu {
    const options: seq<string>
    var selected: int

    /**
     * The cursor is on an option; over no options, DOWN can only take it
     * to -1 and UP back to 0.
     */
    ghost predicate Valid()
      reads this
    {
      if |options| > 0 then 0 <= selected < |options| else -1 <= selected <= 0
    }

    constructor (options: seq<string>)
      ensures this.options == options && selected == 0 && Valid()
    {
      this.options := options;
      selected := 0;
    }

    /**
     * `update`: UP and DOWN move the cursor, RETURN answers the selected
     * label (indexing an empty list raises IndexError), and every other
     * event answers None and changes nothing.
     */
    method Update(e: Event) returns (r: Result<Option<string>>)
      requires Valid()
      modifies this
      ensures Valid()
      ensures selected == if e.KeyPress? then Cursor(|options|, old(selected), e.key) else old(selected)
      ensures e == KeyPress(Return) ==> r == if |options| > 0 then Ok(Some(options[selected])) else Err(IndexError)
      ensures e != KeyPress(Return) ==> r == Ok(None)
    {
      if e.KeyPress? {
        if e.key == Up {
          selected := Max(0, selected - 1);
        } else if e.key == Down {
          selected := Min(|options| - 1, selected + 1);
        } else if e.key == Return {
          var picked := PyIndex(options, selected);
          if picked.Err? {
            return Err(picked.error);
          }
          return Ok(Some(picked.value));
        }
      }
      r := Ok(None);
    }
  }

  const InitialScene: string := "initial_scene"
  const MenuScene: string := "menu"
  /** What every change of scene adds to the damage bonus. */
  const SceneBoost: int := 10

  /** The scene bookkeeping of `Game`. */
  class Game {
    var currentScene: string
    var damageBoost: int

    constructor ()
      ensures currentScene == InitialScene && damageBoost == 0
    {
      currentScene := InitialScene;
      damageBoost := 0;
    }

    /** `update_scene`: a different scene becomes current and adds 10 to the bonus; the same scene changes nothing. */
    method UpdateScene(newScene: string)
      modifies this
      ensures currentScene == newScene
      ensures damageBoost == old(damageBoost) + if newScene != old(currentScene) then SceneBoost else 0
    {
      if newScene != currentScene {
        currentScene := newScene;
        damageBoost := damageBoost + SceneBoost;
      }
    }
  }

  /** A position on the screen. */
  datatype Spot = Spot(x: int, y: int)

  /** The player: `_position`. */
  class Character {
    var x: int
    var y: int

    function Place(): Spot
      reads this
    {
      Spot(x, y)
    }

    constructor (x: int, y: int)
      ensures Place() == Spot(x, y)
    {
      this.x, this.y := x, y;
    }

    /** `move`: a shift by (dx, dy). */
    method Move(dx: int, dy: int)
      modifies this
      ensures Place() == Spot(old(x) + dx, old(y) + dy)
    {
      x, y := x + dx, y + dy;
    }
  }

  const FullHealth: int := 1000

  /** The health `reduce_health` leaves: the damage floored at 0, and a fresh 1000 after a game over. */
  function AfterDamage(health: int, amount: int): int
  {
    var left := Max(0, health - amount);
    if left <= 0 then FullHealth else left
  }

  /** After every hit the player is alive: exactly the damage is taken, or, when that leaves nothing, health starts over at 1000. */
  lemma AfterDamageAlive(health: int, amount: int)
    ensures AfterDamage(health, amount) > 0
    ensures health - amount > 0 ==> AfterDamage(health, amount) == health - amount
    ensures health - amount <= 0 ==> AfterDamage(health, amount) == FullHealth
  {
  }

  /** The script's globals that `reset_game` rewrites: the scene, whether a game exists, and the spawner. */
  class World {
    var currentScene: string
    var gameRunning: bool
    const spawner: EnemySpawner

    constructor (spawner: EnemySpawner)
      ensures this.spawner == spawner && currentScene == MenuScene && !gameRunning
    {
      this.spawner := spawner;
      currentScene := MenuScene;
      gameRunning := false;
    }
  }

  /** `Health`, the player's inventory and health bar. */
  class Health {
    var health: int

    constructor ()
      ensures health == FullHealth
    {
      health := FullHealth;
    }

    /**
     * `reduce_health`: the health drops by `amount`, but not below 0; at 0
     * `reset_game` sends the script back to the menu, drops the game,
     * re-arms the spawner and restores 1000.
     */
    method ReduceHealth(amount: int, world: World)
      modifies this, world, world.spawner
      ensures health == AfterDamage(old(health), amount) && health > 0
      ensures old(health) - amount <= 0 ==>
        world.currentScene == MenuScene && !world.gameRunning && !world.spawner.spawned
      ensures old(health) - amount > 0 ==>
        world.currentScene == old(world.currentScene) && world.gameRunning == old(world.gameRunning)
        && world.spawner.spawned == old(world.spawner.spawned)
    {
      health := Max(0, health - amount);
      if health <= 0 {
        ResetGame(world);
      }
    }

    /** `reset_game`. */
    method ResetGame(world: World)
      modifies this, world, world.spawner
      ensures health == FullHealth
      ensures world.currentScene == MenuScene && !world.gameRunning && !world.spawner.spawned
    {
      world.currentScene := MenuScene;
      world.spawner.ResetSpawn();
      world.gameRunning := false;
      health := FullHealth;
    }
  }

  const EnemySpeed: int := 1
  const EnemyHealth: int := 100

  /** One coordinate's step toward the target: `speed` closer, or none when already equal. */
  function StepToward(c: int, t: int): int
  {
    if c < t then c + EnemySpeed else if c > t then c - EnemySpeed else c
  }

  /** `Enemy.update` on a position. */
  function Approach(p: Spot, target: Spot): Spot
  {
    Spot(StepToward(p.x, target.x), StepToward(p.y, target.y))
  }

  /** Every position one step toward the target: where a list of enemies stands after `update_enemies`. */
  function ApproachAll(ps: seq<Spot>, target: Spot): (qs: seq<Spot>)
    ensures |qs| == |ps| && forall k :: 0 <= k < |ps| ==> qs[k] == Approach(ps[k], target)
  {
    seq(|ps|, k requires 0 <= k < |ps| => Approach(ps[k], target))
  }

  /** The larger of the two coordinate gaps. */
  function Gap(p: Spot, target: Spot): nat
  {
    if Abs(p.x - target.x) >= Abs(p.y - target.y) then Abs(p.x - target.x) else Abs(p.y - target.y)
  }

  /**
   * An enemy's step: a coordinate equal to the target's stays, every other
   * one gets exactly one closer, so the larger gap shrinks by one.
   */
  lemma ApproachCloses(p: Spot, target: Spot)
    ensures p.x == target.x ==> Approach(p, target).x == p.x
    ensures p.y == target.y ==> Approach(p, target).y == p.y
    ensures p.x != target.x ==> Abs(Approach(p, target).x - target.x) == Abs(p.x - target.x) - 1
    ensures p.y != target.y ==> Abs(Approach(p, target).y - target.y) == Abs(p.y - target.y) - 1
    ensures p != target ==> Gap(Approach(p, target), target) == Gap(p, target) - 1
    ensures p == target ==> Approach(p, target) == p
  {
  }

  /** n frames of walking toward a player who stands still. */
  function ApproachN(p: Spot, target: Spot, n: nat): Spot
    decreases n
  {
    if n == 0 then p else ApproachN(Approach(p, target), target, n - 1)
  }

  /** An enemy reaches a player who stands still within the larger coordinate gap, and stays there. */
  lemma {:induction false} EnemyReachesTarget(p: Spot, target: Spot, n: nat)
    requires n >= Gap(p, target)
    ensures ApproachN(p, target, n) == target
    decreases n
  {
    if n > 0 {
      ApproachCloses(p, target);
      EnemyReachesTarget(Approach(p, target), target, n - 1);
    }
  }

  /** `check_collision`: strictly closer than `range` on both axes. */
  predicate Near(p: Spot, target: Spot, range: int)
  {
    Abs(p.x - target.x) < range && Abs(p.y - target.y) < range
  }

  class Enemy {
    var x: int
    var y: int
    var health: int

    function Place(): Spot
      reads this
    {
      Spot(x, y)
    }

    /** `Enemy(screen, image, start_pos)` with the default health 100. */
    constructor (p: Spot)
      ensures Place() == p && health == EnemyHealth
    {
      x, y := p.x, p.y;
      health := EnemyHealth;
    }

    /** `update`: one step toward the target on each axis. */
    method Update(target: Spot)
      modifies this
      ensures Place() == Approach(old(Place()), target) && health == old(health)
    {
      if x < target.x {
        x := x + EnemySpeed;
      } else if x > target.x {
        x := x - EnemySpeed;
      }
      if y < target.y {
        y := y + EnemySpeed;
      } else if y > target.y {
        y := y - EnemySpeed;
      }
    }

    predicate CheckCollision(target: Spot, range: int)
      reads this
    {
      Near(Place(), target, range)
    }
  }

  /** The positions of a list of enemies. */
  function Spots(es: seq<Enemy>): (ps: seq<Spot>)
    reads es
    ensures |ps| == |es| && forall k :: 0 <= k < |es| ==> ps[k] == es[k].Place()
  {
    seq(|es|, k requires 0 <= k < |es| reads es => es[k].Place())
  }

  /** How many of the positions are near the target. */
  function CountNear(ps: seq<Spot>, target: Spot, range: int): (n: nat)
    ensures n <= |ps|
    ensures range <= 0 ==> n == 0
  {
    if ps == [] then 0
    else CountNear(ps[..|ps| - 1], target, range) + if Near(ps[|ps| - 1], target, range) then 1 else 0
  }

  /** No position counts exactly when none of them is near the target. */
  lemma {:induction false} NoneNear(ps: seq<Spot>, target: Spot, range: int)
    ensures CountNear(ps, target, range) == 0 <==> forall k :: 0 <= k < |ps| ==> !Near(ps[k], target, range)
    decreases |ps|
  {
    if ps != [] {
      var init := ps[..|ps| - 1];
      NoneNear(init, target, range);
      assert forall k :: 0 <= k < |init| ==> init[k] == ps[k];
    }
  }

  /** The damage of one collision check. */
  const TouchDamage: int := 5

  /** A Python list of enemies; the spawner and the combat system hold the same one. */
  class Roster {
    var enemies: seq<Enemy>

    ghost predicate Valid()
      reads this
    {
      Distinct(enemies)
    }

    constructor ()
      ensures enemies == [] && Valid()
    {
      enemies := [];
    }
  }

  /** Where `spawn_enemies` draws a position: `randint(50, 750)` and `randint(50, 550)`. */
  predicate InSpawnArea(p: Spot)
  {
    50 <= p.x <= 750 && 50 <= p.y <= 550
  }

  class EnemySpawner {
    const roster: Roster
    const numEnemies: nat
    var spawned: bool

    constructor (roster: Roster, numEnemies: nat)
      ensures this.roster == roster && this.numEnemies == numEnemies && !spawned
    {
      this.roster := roster;
      this.numEnemies := numEnemies;
      spawned := false;
    }

    /**
     * `spawn_enemies`: when not spawned yet, appends `num_enemies` new
     * enemies at the drawn positions and remembers that it did; otherwise
     * nothing happens.
     */
    method SpawnEnemies(draws: seq<Spot>)
      requires roster.Valid() && |draws| == numEnemies
      requires forall k :: 0 <= k < |draws| ==> InSpawnArea(draws[k])
      modifies this, roster
      ensures roster.Valid() && spawned
      ensures old(spawned) ==> roster.enemies == old(roster.enemies)
      ensures !old(spawned) ==>
        && |roster.enemies| == |old(roster.enemies)| + numEnemies
        && roster.enemies[..|old(roster.enemies)|] == old(roster.enemies)
        && forall j :: |old(roster.enemies)| <= j < |roster.enemies| ==>
             var e := roster.enemies[j];
             fresh(e) && e.Place() == draws[j - |old(roster.enemies)|] && e.health == EnemyHealth
    {
      if !spawned {
        ghost var n0 := |roster.enemies|;
        for k := 0 to numEnemies
          invariant roster.Valid() && |roster.enemies| == n0 + k
          invariant roster.enemies[..n0] == old(roster.enemies)
          invariant forall j :: n0 <= j < |roster.enemies| ==>
            var e := roster.enemies[j];
            fresh(e) && e.Place() == draws[j - n0] && e.health == EnemyHealth
        {
          var e := new Enemy(draws[k]);
          roster.enemies := roster.enemies + [e];
        }
        spawned := true;
      }
    }

    /** `reset_spawn`: the next `spawn_enemies` creates enemies again. */
    method ResetSpawn()
      modifies this
      ensures !spawned
    {
      spawned := false;
    }

    /**
     * `update_enemies`, the second definition, which replaces the first: it
     * tests `self.enemies_active`, which is the bound method of that name
     * unless `activate_enemies` ran, and true either way, so every enemy
     * takes a step toward the target.
     */
    method UpdateEnemies(target: Spot)
      requires roster.Valid()
      modifies roster.enemies
      ensures forall k :: 0 <= k < |roster.enemies| ==>
        roster.enemies[k].Place() == Approach(old(roster.enemies[k].Place()), target)
        && roster.enemies[k].health == old(roster.enemies[k].health)
    {
      var es := roster.enemies;
      for i := 0 to |es|
        invariant forall k :: 0 <= k < i ==>
          es[k].Place() == Approach(old(es[k].Place()), target) && es[k].health == old(es[k].health)
        invariant forall k :: i <= k < |es| ==> es[k].Place() == old(es[k].Place()) && es[k].health == old(es[k].health)
      {
        es[i].Update(target);
        forall k | 0 <= k < |es| && k != i
          ensures es[k] != es[i]
        {
        }
      }
    }

    /** `check_collisions`: 5 damage for every enemy near the target. */
    method CheckCollisions(target: Spot, range: int) returns (damage: int)
      ensures damage == TouchDamage * CountNear(Spots(roster.enemies), target, range)
      ensures 0 <= damage <= TouchDamage * |roster.enemies|
    {
      var es := roster.enemies;
      ghost var ps := Spots(es);
      damage := 0;
      for i := 0 to |es|
        invariant damage == TouchDamage * CountNear(ps[..i], target, range)
      {
        assert ps[..i + 1][..i] == ps[..i];
        if es[i].CheckCollision(target, range) {
          damage := damage + TouchDamage;
        }
      }
      assert ps[..|es|] == ps;
    }
  }

  /** The squared distance between two positions; `find_closest_enemy` compares its square roots, which order the same way. */
  function Dist2(p: Spot, q: Spot): int
  {
    (p.x - q.x) * (p.x - q.x) + (p.y - q.y) * (p.y - q.y)
  }

  /** The distances of a list of enemies from a position. */
  function Distances(es: seq<Enemy>, c: Spot): (ds: seq<int>)
    reads es
    ensures |ds| == |es| && forall k :: 0 <= k < |es| ==> ds[k] == Dist2(c, es[k].Place())
  {
    seq(|es|, k requires 0 <= k < |es| reads es => Dist2(c, es[k].Place()))
  }

  /** Position i holds the least distance, and no earlier position holds it too. */
  predicate FirstNearest(ds: seq<int>, i: int)
  {
    0 <= i < |ds| && (forall j :: 0 <= j < |ds| ==> ds[i] <= ds[j]) && (forall j :: 0 <= j < i ==> ds[i] < ds[j])
  }

  /** The nearest enemy is well defined: at most one position is the first nearest. */
  lemma FirstNearestUnique(ds: seq<int>, i: int, j: int)
    requires FirstNearest(ds, i) && FirstNearest(ds, j)
    ensures i == j
  {
    assert ds[i] <= ds[j] && ds[j] <= ds[i];
  }

  /** The first nearest position of a list with at least one element. */
  lemma {:induction false} FirstNearestExists(ds: seq<int>)
    requires |ds| > 0
    ensures exists i :: FirstNearest(ds, i)
  {
    if |ds| == 1 {
      assert FirstNearest(ds, 0);
    } else {
      var init := ds[..|ds| - 1];
      FirstNearestExists(init);
      var i :| FirstNearest(init, i);
      if ds[|ds| - 1] < ds[i] {
        assert FirstNearest(ds, |ds| - 1);
      } else {
        assert FirstNearest(ds, i);
      }
    }
  }

  const BaseDamage: int := 50

  /** `Combat`: the player, the enemy list and the game whose bonus adds to every attack. */
  class Combat {
    const character: Character
    const roster: Roster
    const game: Game

    constructor (character: Character, roster: Roster, game: Game)
      ensures this.character == character && this.roster == roster && this.game == game
    {
      this.character := character;
      this.roster := roster;
      this.game := game;
    }

    /** The loop of `find_closest_enemy`, on positions. */
    method ClosestIndex() returns (r: Option<nat>)
      ensures r.None? <==> roster.enemies == []
      ensures r.Some? ==> FirstNearest(Distances(roster.enemies, character.Place()), r.value)
    {
      var es := roster.enemies;
      ghost var ds := Distances(es, character.Place());
      r := None;
      var least := 0;
      for i := 0 to |es|
        invariant r.None? <==> i == 0
        invariant r.Some? ==> FirstNearest(ds[..i], r.value) && least == ds[r.value]
      {
        var d := Dist2(character.Place(), es[i].Place());
        if r.None? || d < least {
          r := Some(i);
          least := d;
        }
      }
      assert ds[..|es|] == ds;
    }

    /**
     * `find_closest_enemy`: None for no enemies, otherwise the nearest
     * one, the first of them on a tie since only a strictly smaller
     * distance replaces the best so far.
     */
    method FindClosestEnemy() returns (r: Option<Enemy>)
      ensures r.None? <==> roster.enemies == []
      ensures r.Some? ==> exists i :: FirstNearest(Distances(roster.enemies, character.Place()), i) && r.value == roster.enemies[i]
    {
      var i := ClosestIndex();
      if i.None? {
        return None;
      }
      r := Some(roster.enemies[i.value]);
    }

    /**
     * `attack_closest_enemy`: the nearest enemy loses 50 plus the game's
     * damage bonus and leaves the list once its health is not positive; no
     * other enemy changes.
     */
    method AttackClosestEnemy()
      requires roster.Valid()
      modifies roster, roster.enemies
      ensures roster.Valid()
      ensures old(roster.enemies) == [] ==> roster.enemies == []
      ensures old(roster.enemies) != [] ==>
        exists i :: FirstNearest(old(Distances(roster.enemies, character.Place())), i)
          && var e := old(roster.enemies)[i];
          && e.health == old(roster.enemies[i].health) - (BaseDamage + game.damageBoost)
          && roster.enemies == (if e.health <= 0 then RemoveFirst(old(roster.enemies), e) else old(roster.enemies))
          && forall k :: 0 <= k < |old(roster.enemies)| && k != i ==> old(roster.enemies)[k].health == old(roster.enemies[k].health)
      ensures forall k :: 0 <= k < |old(roster.enemies)| ==> old(roster.enemies)[k].Place() == old(roster.enemies[k].Place())
    {
      var i := ClosestIndex();
      if i.None? {
        return;
      }
      var e := roster.enemies[i.value];
      e.health := e.health - (BaseDamage + game.damageBoost);
      if e.health <= 0 {
        RemoveFirstDistinct(roster.enemies, e);
        roster.enemies := RemoveFirst(roster.enemies, e);
      }
    }
  }
}
