/**
 * The Game window of game.py: the sprite lists, the counters, the collision handlers
 * and the per-tick update. The physics engine is abstract: impulses and forces handed
 * to it are recorded in `impulses` and `drifts`, and the outcome of one engine step
 * (the contacts reported to the handlers, the bodies' new centres) is an input.
 */
module Game {
  import opened Common
  import opened Auxilary
  import opened GameRules

  /** The health every rescuer is created with by reset. */
  const RescuerHealth: real := 5.0

  /** An impulse (or a constant force) handed to the physics engine for one body. */
  datatype Impulse = Impulse(body: Body, force: Point)

  /** The impulses `custom_update` applies for the queued moves, in queue order. */
  function ImpulsesOf(moves: seq<Move>): seq<Impulse> {
    seq(|moves|, k requires 0 <= k < |moves| => Impulse(moves[k].sprite, moves[k].force))
  }

  /** Whether some queued move targets a rescuer (and may re-anchor its resource). */
  predicate AnyRescuerMove(moves: seq<Move>) {
    exists k :: 0 <= k < |moves| && moves[k].sprite.RescuerBody?
  }

  /** The impulses applied to the asteroids respawned from `draws`, in spawn order. */
  function SpawnImpulses(spawned: seq<Sprite>, draws: seq<SpawnDraw>, arena: Arena): seq<Impulse>
    requires |spawned| <= |draws| && ValidSpawns(draws, arena)
  {
    seq(|spawned|, k requires 0 <= k < |spawned| =>
      Impulse(SpriteBody(spawned[k].id), SpawnForce(draws[k], spawned[k], arena)))
  }

  lemma AppendFreshId(s: seq<Sprite>, x: Sprite, bound: nat)
    requires DistinctIds(s) && IdsBelow(s, bound) && x.id == bound
    ensures DistinctIds(s + [x]) && IdsBelow(s + [x], bound + 1)
  {
  }

  lemma SpawnImpulsesAppend(spawned: seq<Sprite>, s: Sprite, draws: seq<SpawnDraw>, arena: Arena)
    requires |spawned| < |draws| && ValidSpawns(draws, arena)
    ensures SpawnImpulses(spawned + [s], draws, arena)
         == SpawnImpulses(spawned, draws, arena) + [Impulse(SpriteBody(s.id), SpawnForce(draws[|spawned|], s, arena))]
  {
  }

  /** The sprites after the engine step: same identities and extents, new centres. */
  function MoveTo(s: seq<Sprite>, at: seq<Point>): (r: seq<Sprite>)
    requires |at| == |s|
    ensures |r| == |s|
    ensures forall k :: 0 <= k < |s| ==> r[k].id == s[k].id && r[k].Center() == at[k]
    ensures forall k :: 0 <= k < |s| ==> r[k].extent == s[k].extent
  {
    seq(|s|, k requires 0 <= k < |s| => s[k].(centerX := at[k].x, centerY := at[k].y))
  }

  lemma MoveToKeepsIds(s: seq<Sprite>, at: seq<Point>, bound: nat)
    requires |at| == |s| && DistinctIds(s) && IdsBelow(s, bound)
    ensures DistinctIds(MoveTo(s, at)) && IdsBelow(MoveTo(s, at), bound)
  {
  }

  /** Every sprite of the list (at most the one alien) taken to the same new centre. */
  function Relocated(s: seq<Sprite>, at: Point): (r: seq<Sprite>)
    ensures |r| == |s|
    ensures forall k :: 0 <= k < |s| ==> r[k].id == s[k].id && r[k].extent == s[k].extent && r[k].Center() == at
  {
    seq(|s|, k requires 0 <= k < |s| => s[k].(centerX := at.x, centerY := at.y))
  }

  // ---------------------------------------------------------------------------
  // The carry state machine of the two collision handlers
  // ---------------------------------------------------------------------------

  /** A contact the engine reports to a registered post-solve handler. */
  datatype Contact = RescuerAlien | RescuerMotherShip

  /** `carries_resource` of the rescuer with the `pick_up` and `delivery` counters. */
  datatype CarryState = CarryState(carrying: bool, pickUps: nat, deliveries: nat)

  /** One handler call: pick-up only when free, delivery only when carrying. */
  function Handle(s: CarryState, c: Contact): CarryState {
    match c
    case RescuerAlien =>
      if s.carrying then s else CarryState(true, s.pickUps + 1, s.deliveries)
    case RescuerMotherShip =>
      if s.carrying then CarryState(false, s.pickUps, s.deliveries + 1) else s
  }

  /** The handler calls of one engine step, in the order the contacts were reported. */
  function HandleAll(s: CarryState, contacts: seq<Contact>): CarryState {
    if contacts == [] then s
    else Handle(HandleAll(s, contacts[..|contacts| - 1]), contacts[|contacts| - 1])
  }

  /** Pick-ups minus deliveries minus the resource in hand. */
  function Balance(s: CarryState): int {
    s.pickUps - s.deliveries - (if s.carrying then 1 else 0)
  }

  /**
   * Every delivery is preceded by its own pick-up: the handlers keep the balance, and
   * neither counter ever decreases.
   */
  lemma {:induction false} HandleAllKeepsBalance(s: CarryState, contacts: seq<Contact>)
    ensures var r := HandleAll(s, contacts);
            Balance(r) == Balance(s) && r.pickUps >= s.pickUps && r.deliveries >= s.deliveries
  {
    if contacts != [] {
      HandleAllKeepsBalance(s, contacts[..|contacts| - 1]);
    }
  }

  /** The counters rise by at most one per contact. */
  lemma {:induction false} HandleAllCountsContacts(s: CarryState, contacts: seq<Contact>)
    ensures var r := HandleAll(s, contacts);
            r.pickUps + r.deliveries <= s.pickUps + s.deliveries + |contacts|
  {
    if contacts != [] {
      HandleAllCountsContacts(s, contacts[..|contacts| - 1]);
    }
  }

  /** A carry flag that goes from true to false within one step means a delivery happened. */
  lemma {:induction false} DropMeansDelivery(s: CarryState, contacts: seq<Contact>)
    requires s.carrying && !HandleAll(s, contacts).carrying
    ensures HandleAll(s, contacts).deliveries > s.deliveries
  {
    if contacts != [] {
      var before := HandleAll(s, contacts[..|contacts| - 1]);
      HandleAllKeepsBalance(s, contacts[..|contacts| - 1]);
      if before.carrying {
        assert contacts[|contacts| - 1] == RescuerMotherShip;
      } else {
        DropMeansDelivery(s, contacts[..|contacts| - 1]);
      }
    }
  }

  /**
   * A pick-up and a delivery in the same step leave the flag false before and after:
   * the delivery counter rises, but no true-to-false change is visible.
   */
  lemma PickUpAndDeliveryInOneStep(p: nat, d: nat)
    ensures HandleAll(CarryState(false, p, d), [RescuerAlien, RescuerMotherShip]) == CarryState(false, p + 1, d + 1)
  {
    var s := CarryState(false, p, d);
    assert [RescuerAlien, RescuerMotherShip][..1] == [RescuerAlien];
    assert [RescuerAlien][..0] == [];
    assert HandleAll(s, [RescuerAlien]) == Handle(s, RescuerAlien) == CarryState(true, p + 1, d);
  }

  /** The rescue test `step` evidently intends: the delivery counter rose during the tick. */
  predicate Delivered(before: CarryState, after: CarryState) {
    after.deliveries > before.deliveries
  }

  /**
   * Reading the delivery counter notices every rescue the carry-flag edge notices, and
   * also a pick-up followed by a delivery within one tick, which the edge misses.
   */
  lemma DeliveryNoticesEveryRescue(s: CarryState, contacts: seq<Contact>)
    ensures var r := HandleAll(s, contacts);
            && (s.carrying && !r.carrying ==> Delivered(s, r))
            && (!r.carrying && r.pickUps > s.pickUps ==> Delivered(s, r))
  {
    HandleAllKeepsBalance(s, contacts);
    if s.carrying && !HandleAll(s, contacts).carrying {
      DropMeansDelivery(s, contacts);
    }
  }

  /** Removes every occurrence of `x` (`remove_from_sprite_lists`). */
  function Without(s: seq<Resource>, x: Resource?): (r: seq<Resource>)
    ensures forall k :: 0 <= k < |r| ==> r[k] in s && r[k] != x
    ensures forall k :: 0 <= k < |s| && s[k] != x ==> s[k] in r
    ensures |r| <= |s| && (x in s ==> |r| < |s|)
  {
    if s == [] then []
    else (if s[0] == x then [] else [s[0]]) + Without(s[1..], x)
  }

  // ---------------------------------------------------------------------------
  // Random draws of reset and of one engine step
  // ---------------------------------------------------------------------------

  /** The hit-box extents arcade derives from each texture file at scale 1. */
  datatype Textures = Textures(rescuer: Extent, mothership: Extent, alien: Extent, asteroid: Extent)

  /** The draws behind one asteroid of reset: its spawn draw and `randint(1, 3)` for its scale. */
  datatype AsteroidDraw = AsteroidDraw(spawn: SpawnDraw, scaling: int)

  /** Every draw reset makes: the rescuer's centre, the placement rounds, the asteroids. */
  datatype ResetDraws = ResetDraws(rescuerX: int, rescuerY: int, placements: seq<Placement>, asteroids: seq<AsteroidDraw>)

  /** What one engine step produced: the contacts in callback order, then the new centres. */
  datatype PhysicsStep = PhysicsStep(contacts: seq<Contact>, rescuerAt: Point, alienAt: Point, asteroidsAt: seq<Point>)

  /**
   * The part of the game a tick reads, rewrites or must leave alone, as it was before the
   * tick: the carry state, the rescuer's centre and health, the carried resource (if any)
   * with its centre and stuck flag, the alien and asteroid lists, the next identity and the
   * collision count.
   */
  datatype TickStart = TickStart(carry: CarryState, rescuerAt: Point, health: real,
                                 carried: Resource?, carriedAt: Point, carriedStuck: bool,
                                 aliens: seq<Sprite>, asteroids: seq<Sprite>, nextId: nat, collision: nat)

  class Game {
    const width: int
    const height: int
    const textures: Textures

    var rescuerList: seq<Rescuer>
    var motherShipList: seq<Sprite>
    var alienList: seq<Sprite>
    var resourceList: seq<Resource>
    var asteroidsList: seq<Sprite>
    var actionList: seq<Move>

    var pickUp: nat
    var delivery: nat
    var collision: nat

    /** The impulses handed to the current physics engine, in order. */
    var impulses: seq<Impulse>
    /** The constant forces set on the asteroids when the engine was built. */
    var drifts: seq<Impulse>
    /** The next unused sprite identity. */
    var nextId: nat
    /** The identity of the alien reset placed (the only body of collision type "alien"). */
    var alfred: nat

    /** `__init__` followed by `setup`: empty sprite lists, counters at zero. */
    constructor (width: int, height: int, textures: Textures)
      ensures this.width == width && this.height == height && this.textures == textures
      ensures rescuerList == [] && motherShipList == [] && alienList == []
      ensures resourceList == [] && asteroidsList == [] && actionList == []
      ensures pickUp == 0 && delivery == 0 && collision == 0
      ensures impulses == [] && drifts == []
    {
      this.width := width;
      this.height := height;
      this.textures := textures;
      rescuerList, motherShipList, alienList := [], [], [];
      resourceList, asteroidsList, actionList := [], [], [];
      pickUp, delivery, collision := 0, 0, 0;
      impulses, drifts := [], [];
      nextId, alfred := 0, 0;
    }

    /** Screen size and the extent of a respawned asteroid (scale 0.5 / 1.5). */
    function SpawnArena(): Arena {
      Arena(width, height, textures.asteroid.Scaled(1.0 / 3.0))
    }

    /**
     * The state between ticks: one rescuer, one mothership, eight asteroids with
     * distinct identities, and the carry flag matching the resource it points to:
     * while carrying, the alien is gone and the carried resource is the only one;
     * otherwise there is no resource and at most the one alien.
     */
    ghost predicate Valid()
      reads this, rescuerList
    {
      && |rescuerList| == 1
      && |motherShipList| == 1
      && |asteroidsList| == AsteroidCount
      && DistinctIds(asteroidsList) && IdsBelow(asteroidsList, nextId)
      && (alienList == [] || (|alienList| == 1 && alienList[0].id == alfred))
      && var r := rescuerList[0];
         && (r.carriesResource <==> r.resourceCarried != null)
         && (r.carriesResource ==> alienList == [] && resourceList == [r.resourceCarried])
         && (!r.carriesResource ==> resourceList == [])
    }

    function TheRescuer(): Rescuer
      reads this
      requires |rescuerList| >= 1
    {
      rescuerList[0]
    }

    predicate Carrying()
      reads this, rescuerList
      requires |rescuerList| >= 1
    {
      rescuerList[0].carriesResource
    }

    function Carry(): CarryState
      reads this, rescuerList
      requires |rescuerList| >= 1
    {
      CarryState(rescuerList[0].carriesResource, pickUp, delivery)
    }

    /** The resource the rescuer carries, or null. */
    function Carried(): Resource?
      reads this, rescuerList
      requires |rescuerList| >= 1
    {
      rescuerList[0].resourceCarried
    }

    /** The part of the current state that the next tick reads, rewrites or must leave alone. */
    function Start(): TickStart
      reads this, rescuerList, Carried()
      requires |rescuerList| >= 1
    {
      var c := Carried();
      TickStart(Carry(), TheRescuer().Center(), TheRescuer().health,
                c, if c == null then Point(0.0, 0.0) else c.Center(), c != null && c.isStuck,
                alienList, asteroidsList, nextId, collision)
    }

    /**
     * The carried resource after a tick that started from `before`. One picked up in
     * the tick is stuck at (x - 10, y - 10) of the rescuer's centre before the tick.
     * One carried through the tick is the same resource with the same flag; it sits at
     * (x, y - 20) of that centre when a queued move `pushed` the rescuer, and where it
     * was otherwise (the engine does not move it).
     */
    predicate CarriedAfter(before: TickStart, pushed: bool)
      reads this, rescuerList, Carried()
      requires |rescuerList| >= 1
    {
      Carrying() ==>
        var r := Carried();
        && r != null
        && if pickUp > before.carry.pickUps then
             r.isStuck && r.Center() == Point(before.rescuerAt.x - 10.0, before.rescuerAt.y - 10.0)
           else
             && r == before.carried && r.isStuck == before.carriedStuck
             && r.Center() == if pushed then Point(before.rescuerAt.x, before.rescuerAt.y - 20.0) else before.carriedAt
    }

    /**
     * The game the engine half of a tick leaves behind when the tick started from
     * `before`: no queued moves, the contacts handled in callback order and the carried
     * resource as `CarriedAfter` says, the rescuer at its new centre with its health
     * untouched, and the alien gone once picked up and moved otherwise.
     */
    predicate SteppedFrom(before: TickStart, pushed: bool, tick: PhysicsStep)
      reads this, rescuerList, Carried()
      requires |rescuerList| >= 1
    {
      && actionList == []
      && Carry() == HandleAll(before.carry, tick.contacts)
      && CarriedAfter(before, pushed)
      && TheRescuer().Center() == tick.rescuerAt && TheRescuer().health == before.health
      && alienList == Relocated(if pickUp > before.carry.pickUps then [] else before.aliens, tick.alienAt)
    }

    /**
     * The game one whole tick leaves behind when it started from `before`: the engine
     * half as `SteppedFrom` says, `collision` raised when an asteroid in `hits` is still
     * listed, and the asteroids moved, grown back towards eight and thinned to those on
     * screen.
     */
    predicate TickedFrom(before: TickStart, pushed: bool, tick: PhysicsStep, spawns: seq<SpawnDraw>, hits: set<nat>)
      reads this, rescuerList, Carried()
      requires |rescuerList| >= 1
    {
      && SteppedFrom(before, pushed, tick)
      && collision == before.collision + (if HitsAsteroid(hits) then 1 else 0)
      && |tick.asteroidsAt| == |before.asteroids| && ValidSpawns(spawns, SpawnArena())
      && var grown := Grow(MoveTo(before.asteroids, tick.asteroidsAt), 0, spawns, before.nextId, SpawnArena());
         && grown.Some?
         && asteroidsList == OnScreen(grown.value, width, height)
    }

    /** `_has_moved_beyond_screen(rescuer_list[0])`. */
    predicate RescuerBeyond()
      reads this, rescuerList
      requires |rescuerList| >= 1
    {
      var r := rescuerList[0];
      BeyondScreen(r.centerX + r.extent.minX, r.centerX + r.extent.maxX,
                   r.centerY + r.extent.minY, r.centerY + r.extent.maxY, width, height)
    }

    /** `check_for_collision_with_list` is non-empty: `hits` names the asteroids whose hit boxes meet the rescuer's. */
    predicate HitsAsteroid(hits: set<nat>)
      reads this
    {
      exists k :: 0 <= k < |asteroidsList| && asteroidsList[k].id in hits
    }

    /** Moves only ever target the game's own rescuer (or plain sprites). */
    predicate MovesOwnRescuer(moves: seq<Move>)
      reads this
    {
      forall k :: 0 <= k < |moves| && moves[k].sprite.RescuerBody? ==>
        |rescuerList| >= 1 && moves[k].sprite.rescuer == rescuerList[0]
    }

    /**
     * What the engine can report for the current sprites: a new centre for every
     * asteroid, and no more pick-ups than there are aliens to touch (a removed alien
     * has no body left to collide with).
     */
    predicate Feasible(step: PhysicsStep)
      reads this, rescuerList
      requires |rescuerList| >= 1
    {
      && |step.asteroidsAt| == |asteroidsList|
      && HandleAll(Carry(), step.contacts).pickUps <= pickUp + |alienList|
    }

    // -------------------------------------------------------------------------
    // reset
    // -------------------------------------------------------------------------

    predicate ValidResetDraws(draws: ResetDraws) {
      && CoordDraw(draws.rescuerX, 100, height) && CoordDraw(draws.rescuerY, 100, height)
      && |draws.placements| == 100
      && (forall k :: 0 <= k < |draws.placements| ==> PlacementDraw(draws.placements[k]))
      && |draws.asteroids| == AsteroidCount
      && forall k :: 0 <= k < |draws.asteroids| ==>
           ValidSpawn(draws.asteroids[k].spawn, width, height) && 1 <= draws.asteroids[k].scaling <= 3
    }

    /** All four coordinates of a round come from `_get_random_coord(lb=50)`. */
    predicate PlacementDraw(p: Placement) {
      CoordDraw(p.x1, 50, height) && CoordDraw(p.y1, 50, height)
      && CoordDraw(p.x2, 50, height) && CoordDraw(p.y2, 50, height)
    }

    /** An asteroid of reset: at its border point, at scale 0.5 / 1.5 * scaling. */
    function InitialAsteroid(d: AsteroidDraw, id: nat): (s: Sprite)
      requires ValidSpawn(d.spawn, width, height)
      ensures s.id == id
    {
      var p := AsteroidCoord(d.spawn.border, d.spawn.margin, d.spawn.offset, width, height);
      Sprite(id, p.x, p.y, textures.asteroid.Scaled(d.scaling as real / 3.0))
    }

    /** The constant forces reset sets on its asteroids, drawn by `_get_random_force`. */
    function Drifts(asteroids: seq<Sprite>, draws: seq<AsteroidDraw>): seq<Impulse>
      requires |asteroids| <= |draws|
      requires forall k :: 0 <= k < |draws| ==> ValidSpawn(draws[k].spawn, width, height)
    {
      seq(|asteroids|, k requires 0 <= k < |asteroids| =>
        Impulse(SpriteBody(asteroids[k].id), SpawnForce(draws[k].spawn, asteroids[k], SpawnArena())))
    }

    /**
     * `_no_overlapping_coords`: up to 100 rounds of four coordinates; the first round
     * whose two points lie more than 200 apart, or the last round drawn.
     */
    method NoOverlappingCoords(rounds: seq<Placement>) returns (p: Placement, used: nat)
      requires |rounds| == 100
      requires forall k :: 0 <= k < |rounds| ==> PlacementDraw(rounds[k])
      ensures 1 <= used <= |rounds| && p == rounds[used - 1]
      ensures used - 1 == ChosenRound(rounds)
    {
      var k := 0;
      p, used := rounds[0], 1;
      while k < 100
        invariant 0 <= k <= 100
        invariant forall j :: 0 <= j < k ==> !FarApart(rounds[j])
        invariant k > 0 ==> p == rounds[k - 1] && used == k
        invariant k == 0 ==> p == rounds[0] && used == 1
      {
        p, used := rounds[k], k + 1;
        if FarApart(p) {
          break;
        }
        k := k + 1;
      }
    }

    /**
     * The game `reset` leaves behind for `draws`, handing out identities from `firstId`:
     * one free rescuer with health 5 at the drawn point, the mothership and the alien at
     * the two points of the chosen placement round, the eight drawn asteroids with the
     * following identities, and a new engine with no impulses and one drift force per
     * asteroid. Each sprite has its texture's hit box at its scale (0.5 for the rescuer,
     * 0.25 for the mothership, 0.2 for the alien).
     */
    predicate ResetBy(draws: ResetDraws, firstId: nat)
      reads this, rescuerList
      requires ValidResetDraws(draws)
    {
      && |rescuerList| == 1 && |motherShipList| == 1 && |alienList| == 1 && resourceList == []
      && |asteroidsList| == AsteroidCount
      && (forall k :: 0 <= k < AsteroidCount ==>
            asteroidsList[k] == InitialAsteroid(draws.asteroids[k], firstId + 2 + k))
      && impulses == [] && drifts == Drifts(asteroidsList, draws.asteroids)
      && (var r := rescuerList[0];
          && !r.carriesResource && r.health == RescuerHealth
          && r.Center() == Point(draws.rescuerX as real, draws.rescuerY as real)
          && r.extent == textures.rescuer.Scaled(0.5))
      && var round := draws.placements[ChosenRound(draws.placements)];
         && motherShipList[0].Center() == Point(round.x1 as real, round.y1 as real)
         && motherShipList[0].extent == textures.mothership.Scaled(0.25)
         && alienList[0].Center() == Point(round.x2 as real, round.y2 as real)
         && alienList[0].extent == textures.alien.Scaled(0.2)
    }

    /**
     * `reset`: clears the sprite lists and refills them with one rescuer (health 5),
     * the mothership and the alien at the placement round, and eight asteroids; a new
     * engine starts with no impulses and a drift force per asteroid. The counters and
     * the action queue are left as they were.
     */
    method Reset(draws: ResetDraws)
      requires ValidResetDraws(draws)
      modifies this`rescuerList, this`motherShipList, this`alienList, this`resourceList, this`asteroidsList
      modifies this`alfred, this`nextId, this`impulses, this`drifts
      ensures Valid() && ResetBy(draws, old(nextId))
      ensures fresh(TheRescuer())
    {
      rescuerList, motherShipList, alienList, resourceList, asteroidsList := [], [], [], [], [];

      var rescuer := new Rescuer(draws.rescuerX as real, draws.rescuerY as real,
                                 textures.rescuer.Scaled(0.5), RescuerHealth);
      rescuerList := [rescuer];
      PlaceMotherShipAndAlien(draws.placements);
      PlaceAsteroids(draws.asteroids);
      StartEngine(draws.asteroids);
    }

    /** The mothership and the alien of `reset`, at the two points of the placement round. */
    method PlaceMotherShipAndAlien(rounds: seq<Placement>)
      requires |rounds| == 100
      requires forall k :: 0 <= k < |rounds| ==> PlacementDraw(rounds[k])
      modifies this`motherShipList, this`alienList, this`alfred, this`nextId
      ensures |motherShipList| == 1 && |alienList| == 1 && alienList[0].id == alfred
      ensures nextId == old(nextId) + 2
      ensures var round := rounds[ChosenRound(rounds)];
              && motherShipList[0].Center() == Point(round.x1 as real, round.y1 as real)
              && alienList[0].Center() == Point(round.x2 as real, round.y2 as real)
      ensures motherShipList[0].extent == textures.mothership.Scaled(0.25)
      ensures alienList[0].extent == textures.alien.Scaled(0.2)
    {
      var placement, used := NoOverlappingCoords(rounds);
      motherShipList := [Sprite(nextId, placement.x1 as real, placement.y1 as real,
                                textures.mothership.Scaled(0.25))];
      alfred := nextId + 1;
      alienList := [Sprite(alfred, placement.x2 as real, placement.y2 as real,
                           textures.alien.Scaled(0.2))];
      nextId := nextId + 2;
    }

    /** The asteroid loop of `reset`: one asteroid per draw, each with a fresh identity. */
    method PlaceAsteroids(draws: seq<AsteroidDraw>)
      requires forall k :: 0 <= k < |draws| ==> ValidSpawn(draws[k].spawn, width, height)
      modifies this`asteroidsList, this`nextId
      ensures |asteroidsList| == |draws| && nextId == old(nextId) + |draws|
      ensures forall k :: 0 <= k < |draws| ==> asteroidsList[k] == InitialAsteroid(draws[k], old(nextId) + k)
      ensures DistinctIds(asteroidsList) && IdsBelow(asteroidsList, nextId)
    {
      asteroidsList := [];
      for k := 0 to |draws|
        invariant |asteroidsList| == k && nextId == old(nextId) + k
        invariant forall j :: 0 <= j < k ==> asteroidsList[j] == InitialAsteroid(draws[j], old(nextId) + j)
      {
        asteroidsList := asteroidsList + [InitialAsteroid(draws[k], nextId)];
        nextId := nextId + 1;
      }
    }

    /** A new physics engine: no impulse yet, and a drift force on every asteroid in list order. */
    method StartEngine(draws: seq<AsteroidDraw>)
      requires |asteroidsList| <= |draws|
      requires forall k :: 0 <= k < |draws| ==> ValidSpawn(draws[k].spawn, width, height)
      modifies this`impulses, this`drifts
      ensures impulses == [] && drifts == Drifts(asteroidsList, draws)
    {
      impulses, drifts := [], [];
      for k := 0 to |asteroidsList|
        invariant impulses == [] && drifts == Drifts(asteroidsList[..k], draws)
      {
        var a := asteroidsList[k];
        drifts := drifts + [Impulse(SpriteBody(a.id), SpawnForce(draws[k].spawn, a, SpawnArena()))];
      }
      assert asteroidsList[..|asteroidsList|] == asteroidsList;
    }

    // -------------------------------------------------------------------------
    // The collision handlers
    // -------------------------------------------------------------------------

    /**
     * `rescuer_alien_collision_handler`: a free rescuer picks the alien up: `pick_up`
     * rises by one, a new stuck resource appears at (x - 10, y - 10) of the rescuer and
     * becomes the carried one, and the alien is removed. A carrying rescuer changes nothing.
     */
    method RescuerAlienCollision()
      requires Valid()
      modifies this`pickUp, this`resourceList, this`alienList, TheRescuer()`carriesResource, TheRescuer()`resourceCarried
      ensures Valid()
      ensures Carry() == Handle(old(Carry()), RescuerAlien)
      ensures old(Carrying()) ==> unchanged(this) && unchanged(rescuerList[0])
      ensures !old(Carrying()) ==>
                var r := TheRescuer().resourceCarried;
                && r != null && fresh(r) && r.isStuck
                && r.centerX == TheRescuer().centerX - 10.0 && r.centerY == TheRescuer().centerY - 10.0
                && resourceList == old(resourceList) + [r]
                && alienList == Keep(old(alienList), [alfred]) && alienList == []
      ensures TheRescuer().Center() == old(TheRescuer().Center())
      ensures TheRescuer().health == old(TheRescuer().health)
    {
      var rescuer := rescuerList[0];
      if !rescuer.carriesResource {
        pickUp := pickUp + 1;
        rescuer.carriesResource := true;

        var resource := new Resource(rescuer.centerX, rescuer.centerY);
        resource.isStuck := true;
        resource.centerX := rescuer.centerX - 10.0;
        resource.centerY := rescuer.centerY - 10.0;

        resourceList := resourceList + [resource];
        rescuer.resourceCarried := resource;
        if alienList != [] {
          assert alienList[1..] == [] && alienList[0].id in [alfred];
          assert Keep(alienList[1..], [alfred]) == [];
        }
        alienList := Keep(alienList, [alfred]);
        assert alienList == [];
      }
    }

    /**
     * `rescuer_mother_ship_collision_handler`: a carrying rescuer delivers: `delivery`
     * rises by one, the flag and the carried reference are cleared, and exactly the
     * carried resource leaves the resource list. A free rescuer changes nothing.
     */
    method RescuerMotherShipCollision()
      requires Valid()
      modifies this`delivery, this`resourceList, TheRescuer()`carriesResource, TheRescuer()`resourceCarried
      ensures Valid()
      ensures Carry() == Handle(old(Carry()), RescuerMotherShip)
      ensures !old(Carrying()) ==> unchanged(this) && unchanged(rescuerList[0])
      ensures old(Carrying()) ==>
                && TheRescuer().resourceCarried == null
                && (forall x :: x in resourceList <==> x in old(resourceList) && x != old(TheRescuer().resourceCarried))
                && resourceList == []
      ensures TheRescuer().Center() == old(TheRescuer().Center())
      ensures TheRescuer().health == old(TheRescuer().health)
    {
      var rescuer := rescuerList[0];
      if rescuer.carriesResource {
        delivery := delivery + 1;
        rescuer.carriesResource := false;

        var resource := rescuer.resourceCarried;
        resourceList := Without(resourceList, resource);
        rescuer.resourceCarried := null;
      }
    }

    /** The engine calls the post-solve handler of every reported contact, in order. */
    method Dispatch(contacts: seq<Contact>)
      requires Valid()
      modifies this`pickUp, this`delivery, this`resourceList, this`alienList
      modifies TheRescuer()`carriesResource, TheRescuer()`resourceCarried
      ensures Valid()
      ensures Carry() == HandleAll(old(Carry()), contacts)
      ensures alienList == if pickUp > old(pickUp) then [] else old(alienList)
      ensures TheRescuer().Center() == old(TheRescuer().Center())
      ensures CarriedAfter(old(Start()), false)
      ensures Carrying() && pickUp > old(pickUp) ==> fresh(Carried())
    {
      for k := 0 to |contacts|
        invariant Valid()
        invariant Carry() == HandleAll(old(Carry()), contacts[..k])
        invariant pickUp >= old(pickUp)
        invariant alienList == if pickUp > old(pickUp) then [] else old(alienList)
        invariant TheRescuer().Center() == old(TheRescuer().Center())
        invariant CarriedAfter(old(Start()), false)
        invariant Carrying() && pickUp > old(pickUp) ==> fresh(Carried())
      {
        assert contacts[..k + 1][..k] == contacts[..k];
        match contacts[k]
        case RescuerAlien => RescuerAlienCollision();
        case RescuerMotherShip => RescuerMotherShipCollision();
      }
      assert contacts[..|contacts|] == contacts;
    }

    // -------------------------------------------------------------------------
    // custom_update
    // -------------------------------------------------------------------------

    /**
     * The first loop of `custom_update`: every queued move's force goes to its sprite
     * in queue order, a move of a carrying rescuer puts the carried resource at
     * (x, y - 20) of the rescuer, and the queue is cleared.
     */
    method ApplyActions()
      requires Valid() && MovesOwnRescuer(actionList)
      modifies this`impulses, this`actionList, resourceList`centerX, resourceList`centerY
      ensures Valid()
      ensures actionList == []
      ensures impulses == old(impulses) + ImpulsesOf(old(actionList))
      ensures Carrying() && AnyRescuerMove(old(actionList)) ==>
                resourceList[0].centerX == TheRescuer().centerX && resourceList[0].centerY == TheRescuer().centerY - 20.0
      ensures !(Carrying() && AnyRescuerMove(old(actionList))) ==> unchanged(resourceList)
    {
      var k := 0;
      while k < |actionList|
        invariant 0 <= k <= |actionList| && actionList == old(actionList)
        invariant Valid()
        invariant impulses == old(impulses) + ImpulsesOf(actionList[..k])
        invariant Carrying() && AnyRescuerMove(actionList[..k]) ==>
                    resourceList[0].centerX == TheRescuer().centerX && resourceList[0].centerY == TheRescuer().centerY - 20.0
        invariant !(Carrying() && AnyRescuerMove(actionList[..k])) ==> unchanged(resourceList)
      {
        var move := actionList[k];
        assert actionList[..k + 1] == actionList[..k] + [move];
        ApplyMove(move);
        assert move.sprite.RescuerBody? ==> AnyRescuerMove(actionList[..k + 1]);
        assert AnyRescuerMove(actionList[..k + 1]) ==> AnyRescuerMove(actionList[..k]) || move.sprite.RescuerBody?;
        k := k + 1;
      }
      assert actionList[..k] == actionList;
      actionList := [];
    }

    /** One queued move: its force goes to its sprite, and a carrying rescuer's resource follows it. */
    method ApplyMove(move: Move)
      requires Valid() && (move.sprite.RescuerBody? ==> move.sprite.rescuer == TheRescuer())
      modifies this`impulses, resourceList`centerX, resourceList`centerY
      ensures Valid()
      ensures impulses == old(impulses) + [Impulse(move.sprite, move.force)]
      ensures move.sprite.RescuerBody? && Carrying() ==>
                resourceList[0].centerX == TheRescuer().centerX && resourceList[0].centerY == TheRescuer().centerY - 20.0
      ensures !(move.sprite.RescuerBody? && Carrying()) ==> unchanged(resourceList)
    {
      impulses := impulses + [Impulse(move.sprite, move.force)];
      if move.sprite.RescuerBody? && move.sprite.rescuer.carriesResource {
        var rescuer := move.sprite.rescuer;
        var resource := rescuer.resourceCarried;
        assert rescuer == rescuerList[0] && resourceList == [resource] && resource in resourceList;
        resource.centerX, resource.centerY := rescuer.centerX, rescuer.centerY - 20.0;
      }
    }

    /** The engine resyncs every sprite it holds to its body's new centre. */
    method Resync(rescuerAt: Point, alienAt: Point, asteroidsAt: seq<Point>)
      requires Valid() && |asteroidsAt| == |asteroidsList|
      modifies this`alienList, this`asteroidsList, TheRescuer()`centerX, TheRescuer()`centerY
      ensures Valid()
      ensures TheRescuer().Center() == rescuerAt
      ensures alienList == Relocated(old(alienList), alienAt)
      ensures asteroidsList == MoveTo(old(asteroidsList), asteroidsAt)
      ensures Carry() == old(Carry())
    {
      var rescuer := rescuerList[0];
      rescuer.centerX, rescuer.centerY := rescuerAt.x, rescuerAt.y;
      alienList := Relocated(alienList, alienAt);
      MoveToKeepsIds(asteroidsList, asteroidsAt, nextId);
      asteroidsList := MoveTo(asteroidsList, asteroidsAt);
    }

    /**
     * The asteroid loops of `custom_update`: the walk over `asteroids_list` (which also
     * visits what it appends) respawns one asteroid per flagged one, then every flagged
     * asteroid is removed. The result is the on-screen part of the grown list, the same
     * number of asteroids as before, with an impulse recorded per respawn.
     */
    method MaintainAsteroids(spawns: seq<SpawnDraw>)
      requires Valid()
      requires ValidSpawns(spawns, SpawnArena())
      requires Grow(asteroidsList, 0, spawns, nextId, SpawnArena()).Some?
      modifies this`asteroidsList, this`nextId, this`impulses
      ensures Valid()
      ensures var g := Grow(old(asteroidsList), 0, spawns, old(nextId), SpawnArena()).value;
              && asteroidsList == OnScreen(g, width, height)
              && |old(asteroidsList)| <= |g| <= |old(asteroidsList)| + |spawns|
              && nextId == old(nextId) + (|g| - |old(asteroidsList)|)
              && impulses == old(impulses) + SpawnImpulses(g[|old(asteroidsList)|..], spawns, SpawnArena())
      ensures forall k :: 0 <= k < |asteroidsList| ==> !SpriteBeyond(asteroidsList[k], width, height)
    {
      ghost var g := Grow(asteroidsList, 0, spawns, nextId, SpawnArena()).value;
      GrowKeepsPopulation(asteroidsList, spawns, nextId, SpawnArena());
      var removed := WalkAsteroids(spawns);
      assert asteroidsList == g;
      RemovingFlaggedKeepsOnScreen(g, width, height);
      OnScreenDistinct(g, width, height);
      RemoveAsteroids(removed);
      assert asteroidsList == OnScreen(g, width, height);
    }

    /**
     * The first asteroid loop of `custom_update`: a walk over the list that also visits
     * the asteroids it appends. Each flagged asteroid is noted for removal and the next
     * draw respawns one asteroid, appended with a fresh identity and given an impulse.
     */
    method WalkAsteroids(spawns: seq<SpawnDraw>) returns (removed: seq<nat>)
      requires ValidSpawns(spawns, SpawnArena())
      requires Grow(asteroidsList, 0, spawns, nextId, SpawnArena()).Some?
      requires DistinctIds(asteroidsList) && IdsBelow(asteroidsList, nextId)
      modifies this`asteroidsList, this`nextId, this`impulses
      ensures var g := Grow(old(asteroidsList), 0, spawns, old(nextId), SpawnArena()).value;
              && asteroidsList == g
              && |old(asteroidsList)| <= |g| <= |old(asteroidsList)| + |spawns|
              && nextId == old(nextId) + (|g| - |old(asteroidsList)|)
              && impulses == old(impulses) + SpawnImpulses(g[|old(asteroidsList)|..], spawns, SpawnArena())
      ensures removed == BeyondIds(asteroidsList, width, height)
      ensures DistinctIds(asteroidsList) && IdsBelow(asteroidsList, nextId)
    {
      ghost var orig := asteroidsList;
      ghost var target := Grow(orig, 0, spawns, nextId, SpawnArena()).value;
      GrowAppendsRespawns(orig, 0, spawns, nextId, SpawnArena());

      removed := [];
      var rest := spawns;
      var i := 0;
      while i < |asteroidsList|
        invariant Walking(orig, old(nextId), target, spawns, old(impulses), rest, i, removed)
        decreases |rest| + |asteroidsList| - i
      {
        i, rest, removed := WalkStep(i, rest, removed, orig, old(nextId), target, spawns, old(impulses));
      }
      assert asteroidsList[..i] == asteroidsList;
    }

    /**
     * The state of the walk over the asteroids after `i` of them: the respawns so far
     * appended in order, `rest` the unused draws, `removed` the ids found beyond.
     */
    ghost predicate Walking(orig: seq<Sprite>, next0: nat, target: seq<Sprite>, spawns: seq<SpawnDraw>,
                            logged: seq<Impulse>, rest: seq<SpawnDraw>, i: nat, removed: seq<nat>)
      reads this
    {
      && ValidSpawns(spawns, SpawnArena())
      && |orig| <= |asteroidsList| && i <= |asteroidsList|
      && |asteroidsList| - |orig| <= |spawns| && rest == spawns[|asteroidsList| - |orig|..]
      && nextId == next0 + (|asteroidsList| - |orig|)
      && Grow(asteroidsList, i, rest, nextId, SpawnArena()) == Some(target)
      && removed == BeyondIds(asteroidsList[..i], width, height)
      && DistinctIds(asteroidsList) && IdsBelow(asteroidsList, nextId)
      && impulses == logged + SpawnImpulses(asteroidsList[|orig|..], spawns, SpawnArena())
    }

    /** One asteroid of the walk: note it and respawn one more when it is beyond the screen. */
    method WalkStep(i: nat, rest: seq<SpawnDraw>, removed: seq<nat>, ghost orig: seq<Sprite>, ghost next0: nat,
                    ghost target: seq<Sprite>, ghost spawns: seq<SpawnDraw>, ghost logged: seq<Impulse>)
      returns (i': nat, rest': seq<SpawnDraw>, removed': seq<nat>)
      requires Walking(orig, next0, target, spawns, logged, rest, i, removed) && i < |asteroidsList|
      modifies this`asteroidsList, this`nextId, this`impulses
      ensures Walking(orig, next0, target, spawns, logged, rest', i', removed')
      ensures i' == i + 1 && |rest'| + |asteroidsList| == |rest| + |old(asteroidsList)|
    {
      var a := asteroidsList[i];
      ghost var walked := asteroidsList[..i + 1];
      assert walked == asteroidsList[..i] + [a];
      BeyondIdsAppend(asteroidsList[..i], a, width, height);
      i', rest', removed' := i + 1, rest, removed;
      if SpriteBeyond(a, width, height) {
        removed' := removed + [a.id];
        assert spawns[|asteroidsList| - |orig|] == rest[0];
        var spawned := SpawnReplacement(rest[0], orig, spawns, logged);
        assert asteroidsList[..i + 1] == walked;
        rest' := rest[1..];
      }
    }

    method SpawnReplacement(d: SpawnDraw, ghost orig: seq<Sprite>, ghost spawns: seq<SpawnDraw>, ghost logged: seq<Impulse>)
      returns (spawned: Sprite)
      requires ValidSpawns(spawns, SpawnArena())
      requires |orig| <= |asteroidsList| < |orig| + |spawns| && d == spawns[|asteroidsList| - |orig|]
      requires DistinctIds(asteroidsList) && IdsBelow(asteroidsList, nextId)
      requires impulses == logged + SpawnImpulses(asteroidsList[|orig|..], spawns, SpawnArena())
      modifies this`asteroidsList, this`nextId, this`impulses
      ensures spawned == Respawn(d, old(nextId), SpawnArena())
      ensures asteroidsList == old(asteroidsList) + [spawned] && nextId == old(nextId) + 1
      ensures DistinctIds(asteroidsList) && IdsBelow(asteroidsList, nextId)
      ensures impulses == logged + SpawnImpulses(asteroidsList[|orig|..], spawns, SpawnArena())
    {
      ghost var before := asteroidsList;
      spawned := Respawn(d, nextId, SpawnArena());
      impulses := impulses + [Impulse(SpriteBody(spawned.id), SpawnForce(d, spawned, SpawnArena()))];
      asteroidsList := asteroidsList + [spawned];
      nextId := nextId + 1;
      SpawnImpulsesAppend(before[|orig|..], spawned, spawns, SpawnArena());
      AppendFreshId(before, spawned, nextId - 1);
      assert asteroidsList[|orig|..] == before[|orig|..] + [spawned];
    }

    /** The second asteroid loop: every noted asteroid leaves the list. */
    method RemoveAsteroids(removed: seq<nat>)
      modifies this`asteroidsList
      ensures asteroidsList == Keep(old(asteroidsList), removed)
    {
      KeepNothing(asteroidsList);
      for k := 0 to |removed|
        invariant asteroidsList == Keep(old(asteroidsList), removed[..k])
      {
        KeepAgain(old(asteroidsList), removed[..k], removed[k]);
        assert removed[..k + 1] == removed[..k] + [removed[k]];
        asteroidsList := Keep(asteroidsList, [removed[k]]);
      }
      assert removed[..|removed|] == removed;
    }

    /**
     * The first half of `custom_update`: the queued moves are applied, then the engine
     * steps: its handlers fire for the reported contacts and every sprite takes its
     * body's new centre.
     */
    method EngineStep(step: PhysicsStep)
      requires Valid() && MovesOwnRescuer(actionList) && Feasible(step)
      modifies this`actionList, this`impulses, this`pickUp, this`delivery, this`resourceList, this`alienList
      modifies this`asteroidsList, resourceList
      modifies TheRescuer()`centerX, TheRescuer()`centerY, TheRescuer()`carriesResource, TheRescuer()`resourceCarried
      ensures Valid()
      ensures SteppedFrom(old(Start()), AnyRescuerMove(old(actionList)), step)
      ensures Carrying() && pickUp > old(pickUp) ==> fresh(Carried())
      ensures impulses == old(impulses) + ImpulsesOf(old(actionList))
      ensures asteroidsList == MoveTo(old(asteroidsList), step.asteroidsAt)
    {
      ApplyActions();
      Dispatch(step.contacts);
      Resync(step.rescuerAt, step.alienAt, step.asteroidsAt);
    }

    /**
     * The second half of `custom_update`, after the engine step that left the game as
     * `SteppedFrom` says: maintain the asteroids, count a hit, and report a mistake
     * exactly when the rescuer hits an asteroid or crosses a screen edge.
     */
    method MaintainAndJudge(spawns: seq<SpawnDraw>, hits: set<nat>, ghost before: TickStart, ghost pushed: bool,
                            ghost tick: PhysicsStep)
      returns (mistake: bool)
      requires Valid() && SteppedFrom(before, pushed, tick)
      requires |tick.asteroidsAt| == |before.asteroids| && asteroidsList == MoveTo(before.asteroids, tick.asteroidsAt)
      requires nextId == before.nextId && collision == before.collision
      requires ValidSpawns(spawns, SpawnArena())
      requires Grow(asteroidsList, 0, spawns, nextId, SpawnArena()).Some?
      modifies this`asteroidsList, this`nextId, this`impulses, this`collision
      ensures Valid()
      ensures mistake <==> HitsAsteroid(hits) || RescuerBeyond()
      ensures TickedFrom(before, pushed, tick, spawns, hits)
      ensures var g := Grow(old(asteroidsList), 0, spawns, old(nextId), SpawnArena()).value;
              && |old(asteroidsList)| <= |g| <= |old(asteroidsList)| + |spawns|
              && impulses == old(impulses) + SpawnImpulses(g[|old(asteroidsList)|..], spawns, SpawnArena())
    {
      MaintainAsteroids(spawns);

      var collided := HitsAsteroid(hits);
      var beyond := RescuerBeyond();
      if collided {
        collision := collision + 1;
      }
      mistake := collided || beyond;
    }

    /**
     * `custom_update`: apply the queued moves, let the engine step (its handlers fire for
     * the reported contacts, then every sprite takes its body's new centre), maintain the
     * asteroids, and report a mistake exactly when the rescuer hits an asteroid or
     * crosses a screen edge; `collision` counts the hits.
     */
    method CustomUpdate(step: PhysicsStep, spawns: seq<SpawnDraw>, hits: set<nat>) returns (mistake: bool)
      requires Valid() && MovesOwnRescuer(actionList) && Feasible(step)
      requires ValidSpawns(spawns, SpawnArena())
      requires Grow(MoveTo(asteroidsList, step.asteroidsAt), 0, spawns, nextId, SpawnArena()).Some?
      modifies this`actionList, this`impulses, this`pickUp, this`delivery, this`resourceList, this`alienList
      modifies this`asteroidsList, this`nextId, this`collision, resourceList
      modifies TheRescuer()`centerX, TheRescuer()`centerY, TheRescuer()`carriesResource, TheRescuer()`resourceCarried
      ensures Valid()
      ensures mistake <==> HitsAsteroid(hits) || RescuerBeyond()
      ensures TickedFrom(old(Start()), AnyRescuerMove(old(actionList)), step, spawns, hits)
      ensures Carrying() && pickUp > old(pickUp) ==> fresh(Carried())
      ensures var moved := MoveTo(old(asteroidsList), step.asteroidsAt);
              var g := Grow(moved, 0, spawns, old(nextId), SpawnArena()).value;
              && |moved| <= |g| <= |moved| + |spawns|
              && impulses == old(impulses) + ImpulsesOf(old(actionList)) + SpawnImpulses(g[|moved|..], spawns, SpawnArena())
      ensures unchanged(this`motherShipList, this`drifts)
    {
      EngineStep(step);
      mistake := MaintainAndJudge(spawns, hits, old(Start()), AnyRescuerMove(old(actionList)), step);
    }
  }

  lemma {:induction false} KeepNothing(s: seq<Sprite>)
    ensures Keep(s, []) == s
  {
    if s != [] {
      KeepNothing(s[1..]);
    }
  }
}
