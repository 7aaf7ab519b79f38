/**
 * The doors of AlphaTest/AlphaTest.py, the one part of the earlier RPG
 * version whose rules differ from the shared logic: a door there does not
 * ask which scene the player is in, and the exit door ignores its lock.
 *
 * The pygame rectangle test `rect.colliderect` is a parameter.
 */
module RpgAlpha {
  import opened Wrappers

  /** `Door` and `SecurityDoor`, whose `unlock` only adds a message. */
  class Door {
    const fromScene: string
    const toScene: string
    var locked: bool

    constructor (fromScene: string, toScene: string)
      ensures this.fromScene == fromScene && this.toScene == toScene && locked
    {
      this.fromScene := fromScene;
      this.toScene := toScene;
      locked := true;
    }

    method Unlock()
      modifies this
      ensures !locked
    {
      locked := false;
    }

    /**
     * `interact`, with `colliding` the answer of `colliderect`: the target
     * scene whenever the player touches the unlocked door, from whatever
     * scene; a locked door only prints its message.
     */
    function Interact(colliding: bool): (r: Option<string>)
      reads this
      ensures r.Some? <==> colliding && !locked
      ensures r.Some? ==> r.value == toScene
    {
      if colliding && !locked then Some(toScene) else None
    }
  }

  /** `ExitDoor`: a door that starts unlocked and lets the player out on any touch. */
  class ExitDoor {
    const fromScene: string
    const toScene: string
    var locked: bool

    constructor (fromScene: string, toScene: string)
      ensures this.fromScene == fromScene && this.toScene == toScene && !locked
    {
      this.fromScene := fromScene;
      this.toScene := toScene;
      locked := false;
    }

    method Unlock()
      modifies this
      ensures !locked
    {
      locked := false;
    }

    /** The overriding `interact`: the target scene exactly on a collision, lock or no lock. */
    function Interact(colliding: bool): (r: Option<string>)
      reads this
      ensures r.Some? <==> colliding
      ensures r.Some? ==> r.value == toScene
    {
      if colliding then Some(toScene) else None
    }
  }
}
