/**
 * What BetaTest/classes.py adds to the shared RPG logic: doors that only
 * lead out of the scene they belong to, and the Gopnik fight in waves.
 *
 * The pygame rectangle test `rect.colliderect` is a parameter; the NPC
 * dialogues, which read the console, are not modelled.
 */
module RpgBeta {
  import opened Wrappers
  import opened RpgCommon

  /** `Door` and its subclasses ExitDoor, SecurityDoor and StairDoor, whose `interact` only calls the door's own. */
  class Door {
    const fromScene: string
    const toScene: string
    var locked: bool

    constructor (fromScene: string, toScene: string)
      ensures this.fromScene == fromScene && this.toScene == toScene && locked
    {
      this.fromScene := fromScene;
      this.toScene := toScene;
      locked := true;
    }

    method Unlock()
      modifies this
      ensures !locked
    {
      locked := false;
    }

    method Lock()
      modifies this
      ensures locked
    {
      locked := true;
    }

    /**
     * `interact`, with `colliding` the answer of `colliderect`: the target
     * scene when the player touches the unlocked door from the scene it
     * belongs to; a locked door and a door of another scene answer None.
     */
    function Interact(colliding: bool, currentScene: string): (r: Option<string>)
      reads this
      ensures r.Some? <==> colliding && !locked && fromScene == currentScene
      ensures r.Some? ==> r.value == toScene
      ensures locked ==> r == None
    {
      if colliding && !locked && fromScene == currentScene then Some(toScene) else None
    }
  }

  const TotalWaves: int := 5
  /** The range within which an enemy hurts the player. */
  const DamageRange: int := 50

  /** The wave counter and the fight flag of a GopnikNPC. */
  datatype Waves = Waves(current: int, active: bool)

  /** `activate_next_wave` on the counter: the next wave while below five, otherwise the fight ends. */
  function NextWave(w: Waves): Waves
  {
    if w.current < TotalWaves then w.(current := w.current + 1) else w.(active := false)
  }

  /** n cleared waves in a row. */
  function NextWaves(w: Waves, n: nat): Waves
    decreases n
  {
    if n == 0 then w else NextWaves(NextWave(w), n - 1)
  }

  /**
   * From a running fight at wave c (1 <= c <= 5), n cleared waves reach
   * wave min(c + n, 5), and the fight is still on exactly while n <= 5 - c:
   * the counter never passes five and the fight ends one clear after it.
   */
  lemma {:induction false} WavesRunOut(c: int, n: nat)
    requires 1 <= c <= TotalWaves
    ensures NextWaves(Waves(c, true), n).current == Min(c + n, TotalWaves)
    ensures NextWaves(Waves(c, true), n).active <==> n <= TotalWaves - c
    decreases n
  {
    if n > 0 {
      if c < TotalWaves {
        WavesRunOut(c + 1, n - 1);
      } else {
        StaysEnded(Waves(c, false), n - 1);
      }
    }
  }

  /** An ended fight at wave five stays as it is. */
  lemma {:induction false} StaysEnded(w: Waves, n: nat)
    requires w.current >= TotalWaves && !w.active
    ensures NextWaves(w, n) == w
    decreases n
  {
    if n > 0 {
      StaysEnded(NextWave(w), n - 1);
    }
  }

  /** The damage of one frame of the fight: 5 for every enemy within range 50 once each has stepped toward the player at `target`. */
  function WaveDamage(ps: seq<Spot>, target: Spot): (d: int)
    ensures 0 <= d <= TouchDamage * |ps|
    ensures d == 0 <==> forall k :: 0 <= k < |ps| ==> !Near(Approach(ps[k], target), target, DamageRange)
  {
    NoneNear(ApproachAll(ps, target), target, DamageRange);
    TouchDamage * CountNear(ApproachAll(ps, target), target, DamageRange)
  }

  /** `GopnikNPC`: the fight in five waves, with the spawner, the player's health and the door it guards. */
  class Gopnik {
    const door: Door?
    const spawner: EnemySpawner
    const inventory: Health
    /** The globals the player's game over rewrites. */
    const world: World
    var enemiesActive: bool
    var currentWave: int

    ghost predicate Valid()
      reads this
    {
      0 <= currentWave <= TotalWaves
    }

    function State(): Waves
      reads this
    {
      Waves(currentWave, enemiesActive)
    }

    constructor (door: Door?, spawner: EnemySpawner, inventory: Health, world: World)
      ensures this.door == door && this.spawner == spawner && this.inventory == inventory && this.world == world
      ensures Valid() && !enemiesActive && currentWave == 0
    {
      this.door := door;
      this.spawner := spawner;
      this.inventory := inventory;
      this.world := world;
      enemiesActive := false;
      currentWave := 0;
    }

    /**
     * `start_fight`: the fight is on at wave one, the first wave is
     * spawned, and `unlock_door` is asked, which does nothing at wave one.
     */
    method StartFight(draws: seq<Spot>)
      requires Valid() && spawner.roster.Valid() && |draws| == spawner.numEnemies
      requires forall k :: 0 <= k < |draws| ==> InSpawnArea(draws[k])
      modifies this, spawner, spawner.roster
      ensures Valid() && spawner.roster.Valid() && enemiesActive && currentWave == 1 && spawner.spawned
      ensures old(spawner.spawned) ==> spawner.roster.enemies == old(spawner.roster.enemies)
      ensures !old(spawner.spawned) ==> (|spawner.roster.enemies| == |old(spawner.roster.enemies)| + spawner.numEnemies
        && spawner.roster.enemies[..|old(spawner.roster.enemies)|] == old(spawner.roster.enemies)
        && forall j :: |old(spawner.roster.enemies)| <= j < |spawner.roster.enemies| ==>
             var e := spawner.roster.enemies[j];
             fresh(e) && e.Place() == draws[j - |old(spawner.roster.enemies)|] && e.health == EnemyHealth)
    {
      enemiesActive := true;
      currentWave := 1;
      spawner.SpawnEnemies(draws);
      UnlockDoor();
    }

    /**
     * `activate_next_wave`: below five waves, the next one starts and is
     * spawned (when the spawner has been re-armed); at five the fight ends.
     */
    method ActivateNextWave(draws: seq<Spot>)
      requires Valid() && spawner.roster.Valid() && |draws| == spawner.numEnemies
      requires forall k :: 0 <= k < |draws| ==> InSpawnArea(draws[k])
      modifies this, spawner, spawner.roster
      ensures Valid() && spawner.roster.Valid() && State() == NextWave(old(State()))
      ensures old(currentWave) < TotalWaves ==> spawner.spawned
      ensures old(currentWave) < TotalWaves && old(spawner.spawned) ==> spawner.roster.enemies == old(spawner.roster.enemies)
      ensures old(currentWave) < TotalWaves && !old(spawner.spawned) ==> (|spawner.roster.enemies| == |old(spawner.roster.enemies)| + spawner.numEnemies
        && spawner.roster.enemies[..|old(spawner.roster.enemies)|] == old(spawner.roster.enemies)
        && forall j :: |old(spawner.roster.enemies)| <= j < |spawner.roster.enemies| ==>
             var e := spawner.roster.enemies[j];
             fresh(e) && e.Place() == draws[j - |old(spawner.roster.enemies)|] && e.health == EnemyHealth)
      ensures old(currentWave) >= TotalWaves ==> spawner.roster.enemies == old(spawner.roster.enemies) && spawner.spawned == old(spawner.spawned)
    {
      if currentWave < TotalWaves {
        currentWave := currentWave + 1;
        spawner.SpawnEnemies(draws);
      } else {
        enemiesActive := false;
      }
    }

    /** `unlock_door`: only at the fifth wave, and only when there is a door. */
    method UnlockDoor()
      modifies if door != null && currentWave == TotalWaves then {door} else {}
      ensures door != null && currentWave == TotalWaves ==> !door.locked
    {
      if currentWave == TotalWaves && door != null {
        door.Unlock();
      }
    }

    /**
     * `update_enemies`: during the fight every enemy steps toward the
     * player, the player takes 5 per enemy then within range 50 (a game
     * over when that empties the health), and once the list is empty the
     * next wave is called; with the fight off nothing changes.
     */
    method UpdateEnemies(target: Spot, draws: seq<Spot>)
      requires Valid() && spawner.roster.Valid() && |draws| == spawner.numEnemies && inventory.health > 0
      requires forall k :: 0 <= k < |draws| ==> InSpawnArea(draws[k])
      modifies this, spawner, spawner.roster, spawner.roster.enemies, inventory, world, world.spawner
      ensures Valid() && spawner.roster.Valid()
      ensures !old(enemiesActive) ==> State() == old(State()) && spawner.roster.enemies == old(spawner.roster.enemies)
      ensures old(enemiesActive) && old(spawner.roster.enemies) == [] ==> State() == NextWave(old(State()))
      ensures old(enemiesActive) && old(spawner.roster.enemies) == [] ==>
        if old(currentWave) < TotalWaves && !old(spawner.spawned)
        then |spawner.roster.enemies| == spawner.numEnemies
          && forall j :: 0 <= j < |spawner.roster.enemies| ==>
               var e := spawner.roster.enemies[j];
               fresh(e) && e.Place() == draws[j] && e.health == EnemyHealth
        else spawner.roster.enemies == []
      ensures old(enemiesActive) && old(spawner.roster.enemies) == [] && old(currentWave) < TotalWaves ==> spawner.spawned
      ensures old(enemiesActive) && old(spawner.roster.enemies) != [] ==> (State() == old(State())
        && spawner.roster.enemies == old(spawner.roster.enemies))
      ensures old(enemiesActive) ==> forall k :: 0 <= k < |old(spawner.roster.enemies)| ==>
        old(spawner.roster.enemies)[k].Place() == Approach(old(spawner.roster.enemies[k].Place()), target)
        && old(spawner.roster.enemies)[k].health == old(spawner.roster.enemies[k].health)
      ensures old(enemiesActive) ==>
        var damage := WaveDamage(old(Spots(spawner.roster.enemies)), target);
        && inventory.health == (if damage != 0 then AfterDamage(old(inventory.health), damage) else old(inventory.health))
        && (damage != 0 && old(inventory.health) - damage <= 0 ==> world.currentScene == MenuScene && !world.gameRunning)
        && (damage == 0 || old(inventory.health) - damage > 0 ==>
              world.currentScene == old(world.currentScene) && world.gameRunning == old(world.gameRunning))
      ensures !old(enemiesActive) ==>
        && inventory.health == old(inventory.health) && unchanged(world)
        && forall k :: 0 <= k < |old(spawner.roster.enemies)| ==> unchanged(old(spawner.roster.enemies)[k])
      ensures inventory.health > 0
    {
      ghost var ps := Spots(spawner.roster.enemies);
      if enemiesActive {
        spawner.UpdateEnemies(target);
        assert Spots(spawner.roster.enemies) == ApproachAll(ps, target);
        ghost var damage := TakeHits(target);
        if spawner.roster.enemies == [] && enemiesActive {
          ActivateNextWave(draws);
        }
      }
    }

    /** The hits of `update_enemies`: `check_collisions` counts 5 per enemy within range 50, and a non-zero total is taken off the health. */
    method TakeHits(target: Spot) returns (ghost damage: int)
      requires inventory.health > 0
      modifies inventory, world, world.spawner
      ensures damage == TouchDamage * CountNear(Spots(spawner.roster.enemies), target, DamageRange)
      ensures inventory.health == (if damage != 0 then AfterDamage(old(inventory.health), damage) else old(inventory.health))
      ensures inventory.health > 0
      ensures damage != 0 && old(inventory.health) - damage <= 0 ==> world.currentScene == MenuScene && !world.gameRunning
      ensures damage == 0 || old(inventory.health) - damage > 0 ==>
        world.currentScene == old(world.currentScene) && world.gameRunning == old(world.gameRunning)
        && spawner.spawned == old(spawner.spawned)
    {
      var d := spawner.CheckCollisions(target, DamageRange);
      if d != 0 {
        inventory.ReduceHealth(d, world);
      }
      damage := d;
    }
  }
}
