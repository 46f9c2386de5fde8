/**
 * The entity classes of auxilary.py: the rescuer and the resource it carries (arcade
 * sprites whose fields the game updates in place) and the queued move action.
 */
module Auxilary {
  import opened Common

  /** An arcade sprite with a health value and the carry state of the rescue mission. */
  class Rescuer {
    var centerX: real
    var centerY: real
    /** Its hit box around the centre (the rescuer never rotates). */
    const extent: Extent
    var health: real
    var carriesResource: bool
    /** `resource_carried` is only annotated by the constructor; null stands for "not set" as well as None. */
    var resourceCarried: Resource?

    constructor (centerX: real, centerY: real, extent: Extent, health: real := 0.0)
      ensures this.centerX == centerX && this.centerY == centerY
      ensures this.extent == extent
      ensures this.health == health
      ensures !carriesResource && resourceCarried == null
    {
      this.centerX := centerX;
      this.centerY := centerY;
      this.extent := extent;
      this.health := health;
      carriesResource := false;
      resourceCarried := null;
    }

    function Center(): Point
      reads this
    {
      Point(centerX, centerY)
    }
  }

  /** The rescued alien while it is carried: an arcade sprite with a stuck flag. */
  class Resource {
    var centerX: real
    var centerY: real
    var changeX: real
    var changeY: real
    /** The flag the constructor initialises and the pick-up handler sets. */
    var isStuck: bool
    /**
     * The attribute `update` reads. Nothing assigns it, so it stays absent (None) and
     * reading it raises AttributeError.
     */
    var stuck: Option<bool>

    function Center(): Point
      reads this
    {
      Point(centerX, centerY)
    }

    constructor (centerX: real, centerY: real)
      ensures this.centerX == centerX && this.centerY == centerY
      ensures changeX == 0.0 && changeY == 0.0
      ensures !isStuck && stuck == None
    {
      this.centerX := centerX;
      this.centerY := centerY;
      changeX := 0.0;
      changeY := 0.0;
      isStuck := false;
      stuck := None;
    }

    /**
     * `update` as written: it tests `self.stuck`. When the attribute is absent the call
     * raises (`raised`) and nothing moves; otherwise the centre advances by the velocity
     * exactly when the flag read is false.
     */
    method UpdateAsWritten() returns (raised: bool)
      modifies this
      ensures raised <==> old(stuck) == None
      ensures old(stuck) == Some(false) ==>
                centerX == old(centerX) + changeX && centerY == old(centerY) + changeY
      ensures old(stuck) != Some(false) ==> centerX == old(centerX) && centerY == old(centerY)
      ensures changeX == old(changeX) && changeY == old(changeY)
      ensures isStuck == old(isStuck) && stuck == old(stuck)
    {
      match stuck
      case None =>
        raised := true;
      case Some(flag) =>
        raised := false;
        if !flag {
          centerX := centerX + changeX;
          centerY := centerY + changeY;
        }
    }

    /** `update` as intended: the centre advances by the velocity unless the resource is stuck. */
    method Update()
      modifies this
      ensures !old(isStuck) ==>
                centerX == old(centerX) + changeX && centerY == old(centerY) + changeY
      ensures old(isStuck) ==> centerX == old(centerX) && centerY == old(centerY)
      ensures changeX == old(changeX) && changeY == old(changeY)
      ensures isStuck == old(isStuck) && stuck == old(stuck)
    {
      if !isStuck {
        centerX := centerX + changeX;
        centerY := centerY + changeY;
      }
    }
  }

  /**
   * A freshly built resource is not stuck, yet the written `update` raises instead of
   * moving it, whatever its velocity.
   */
  method FreshResourceUpdateRaises(x: real, y: real, dx: real, dy: real) returns (raised: bool, moved: bool)
    ensures raised && !moved
  {
    var r := new Resource(x, y);
    r.changeX, r.changeY := dx, dy;
    assert !r.isStuck;
    raised := r.UpdateAsWritten();
    moved := r.centerX != x || r.centerY != y;
  }

  /** The corrected `update` moves a freshly built resource by its velocity. */
  method FreshResourceUpdateMoves(x: real, y: real, dx: real, dy: real) returns (cx: real, cy: real)
    ensures cx == x + dx && cy == y + dy
  {
    var r := new Resource(x, y);
    r.changeX, r.changeY := dx, dy;
    r.Update();
    cx, cy := r.centerX, r.centerY;
  }

  /** The sprite an action targets: the rescuer object or a plain sprite by identity. */
  datatype Body = RescuerBody(rescuer: Rescuer) | SpriteBody(id: nat)

  /**
   * A queued `Move`: the `Action` fields (`action_type`, `sprite`) together with the
   * force to apply.
   */
  class Move {
    const actionType: string
    const sprite: Body
    const force: Point

    constructor (actionType: string, sprite: Body, force: Point)
      ensures this.actionType == actionType && this.sprite == sprite && this.force == force
    {
      this.actionType := actionType;
      this.sprite := sprite;
      this.force := force;
    }
  }
}
