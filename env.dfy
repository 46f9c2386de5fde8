/**
 * The gym Environment of env.py around one Game: the step/decision state machine, the
 * stateful reward function and the numerical observation. `dist` is Euclidean
 * distance (`math.dist`, `_euclidean_distance`); hit boxes come in as point lists.
 */
module Env {
  import opened Common
  import opened Auxilary
  import opened GameRules
  import opened Game
  import opened EnvRules

  /** The impulses the moves of `actions` apply to `rescuer`, in order. */
  function Thrusts(actions: seq<int>, rescuer: Rescuer): seq<Impulse>
    requires forall j :: 0 <= j < |actions| ==> ActionMapping(actions[j]).Some?
  {
    seq(|actions|, j requires 0 <= j < |actions| => Impulse(RescuerBody(rescuer), ActionMapping(actions[j]).value))
  }

  /** The tuple `step` returns: obs (None for `{}`), reward, done, truncated, info. */
  datatype StepResult = StepResult(obs: Option<Observation>, reward: real, done: bool, truncated: bool, info: map<string, string>)

  /** `decision`'s answer as `step` returns it. */
  function AsStep(d: Result<Decided>): (r: Result<StepResult>)
    ensures r.Ok? <==> d.Ok?
    ensures r.Err? ==> r.error == d.error
    ensures r.Ok? ==> r.value.obs == d.value.obs && r.value.reward == d.value.reward && r.value.done == d.value.done
    ensures r.Ok? ==> !r.value.truncated && r.value.info == map[]
  {
    match d
    case Ok(x) => Ok(StepResult(x.obs, x.reward, x.done, false, map[]))
    case Err(e) => Err(e)
  }

  class Environment {
    const screenWidth: int
    const game: Game
    const dist: (Point, Point) -> real

    var prevMovementDistance: Option<real>
    var prevAvoidanceDistance: Option<real>
    var movementRewardQueue: seq<real>
    var avoidanceRewardQueue: seq<real>
    /** Set by `step`; false until the first step. */
    var rescuedAlfred: bool

    /** `__init__`: a set-up game and an empty reward state. */
    constructor (screenWidth: int, screenHeight: int, textures: Textures, dist: (Point, Point) -> real)
      requires screenWidth > 0
      ensures this.screenWidth == screenWidth && this.dist == dist
      ensures fresh(game) && game.width == screenWidth && game.height == screenHeight
      ensures game.rescuerList == [] && game.motherShipList == [] && game.alienList == []
      ensures game.resourceList == [] && game.asteroidsList == [] && game.actionList == []
      ensures game.pickUp == 0 && game.delivery == 0 && game.collision == 0
      ensures State() == Cleared && !rescuedAlfred
    {
      this.screenWidth := screenWidth;
      this.dist := dist;
      game := new Game(screenWidth, screenHeight, textures);
      prevMovementDistance, prevAvoidanceDistance := None, None;
      movementRewardQueue, avoidanceRewardQueue := [], [];
      rescuedAlfred := false;
    }

    /** The reward function's memory as a value. */
    function State(): ShaperState
      reads this
    {
      ShaperState(prevMovementDistance, prevAvoidanceDistance, movementRewardQueue, avoidanceRewardQueue)
    }

    /** Between calls: a reset game whose queued moves all push its rescuer, and bounded windows. */
    ghost predicate Valid()
      reads this, game, game.rescuerList
    {
      && screenWidth > 0
      && game.Valid()
      && game.MovesOwnRescuer(game.actionList)
      && State().Bounded()
    }

    /**
     * The numerical part of `get_obs`: goal and rescuer centres divided by the screen
     * width, the goal being the mothership while carrying and the alien otherwise;
     * IndexError when the rescuer or the goal list is empty.
     */
    function GetObs(): (r: Result<Observation>)
      reads game, game.rescuerList
      requires screenWidth > 0
      ensures r.Err? ==> r.error == IndexError
      ensures r.Ok? <==> game.rescuerList != [] &&
                         (if game.rescuerList[0].carriesResource then game.motherShipList != [] else game.alienList != [])
      ensures r.Ok? ==> var w := screenWidth as real; var rescuer := game.rescuerList[0];
                        r.value.rescuerX * w == rescuer.centerX && r.value.rescuerY * w == rescuer.centerY
      ensures r.Ok? && game.rescuerList[0].carriesResource ==>
                var w := screenWidth as real;
                r.value.goalX * w == game.motherShipList[0].centerX && r.value.goalY * w == game.motherShipList[0].centerY
      ensures r.Ok? && !game.rescuerList[0].carriesResource ==>
                var w := screenWidth as real;
                r.value.goalX * w == game.alienList[0].centerX && r.value.goalY * w == game.alienList[0].centerY
    {
      if game.rescuerList == [] then Err(IndexError)
      else
        var rescuer := game.rescuerList[0];
        var goals := if rescuer.carriesResource then game.motherShipList else game.alienList;
        if goals == [] then Err(IndexError)
        else Ok(Normalized(goals[0].Center(), rescuer.Center(), screenWidth as real))
    }

    /**
     * `_get_distance_between_sprites`: the least distance over every pair of hit-box
     * points, infinity when either hit box is empty.
     */
    method DistanceBetweenSprites(points1: seq<Point>, points2: seq<Point>) returns (m: Extended)
      ensures m == MinPair(points1, points2, dist)
    {
      m := Infinity;
      for i := 0 to |points1|
        invariant m == MinPair(points1[..i], points2, dist)
      {
        ghost var rows := m;
        assert points1[..i + 1][..i] == points1[..i];
        for j := 0 to |points2|
          invariant m == MinOf(rows, RowMin(points1[i], points2[..j], dist))
        {
          assert points2[..j + 1][..j] == points2[..j];
          var distance := dist(points1[i], points2[j]);
          MinWithMinOf(rows, RowMin(points1[i], points2[..j], dist), distance);
          if m.Infinity? || distance < m.value {
            m := Finite(distance);
          }
        }
        assert points2[..|points2|] == points2;
      }
      assert points1[..|points1|] == points1;
    }

    /** The loop of `reward_function` that collects the hit-box distances below 130. */
    method NearAsteroidDistances(rescuerBox: seq<Point>, boxes: seq<seq<Point>>) returns (distances: seq<real>)
      ensures distances == NearDistances(rescuerBox, boxes, dist)
    {
      distances := [];
      for k := 0 to |boxes|
        invariant distances == NearDistances(rescuerBox, boxes[..k], dist)
      {
        assert boxes[..k + 1][..k] == boxes[..k];
        var d := DistanceBetweenSprites(rescuerBox, boxes[k]);
        if d.Below(130.0) {
          distances := distances + [d.value];
        }
      }
      assert boxes[..|boxes|] == boxes;
    }

    /**
     * The avoidance half of `reward_function`: without a distance in range the deque is
     * cleared and progress is 0; otherwise the nearest distance is remembered and its
     * increase over the remembered one is pushed.
     */
    static method AvoidanceSignal(prev: Option<real>, queue: seq<real>, distances: seq<real>)
      returns (nextPrev: Option<real>, nextQueue: seq<real>, term: real)
      ensures distances == [] ==> nextPrev == prev && Smoothed(nextQueue, term) == Smooth([], 0.0)
      ensures distances != [] ==>
                nextPrev == Some(Minimum(distances)) &&
                Smoothed(nextQueue, term) == Smooth(queue, AvoidanceProgress(prev, Minimum(distances)))
    {
      var avoidanceProgress := 0.0;
      nextPrev, nextQueue := prev, queue;
      if distances == [] {
        nextQueue := [];
      } else {
        var curr := Minimum(distances);
        avoidanceProgress := if prev.Some? then curr - prev.value else 0.0;
        assert avoidanceProgress == AvoidanceProgress(prev, curr);
        nextPrev := Some(curr);
      }
      var smoothed := Smooth(nextQueue, avoidanceProgress);
      nextQueue, term := smoothed.window, smoothed.term;
    }

    /**
     * The arithmetic of `reward_function` on its remembered state `s`: the movement
     * progress is pushed onto the movement deque, the avoidance signal is computed from
     * the collected distances, and the reward is 1000 times the movement term plus the
     * avoidance term.
     */
    static method ShapeSignals(s: ShaperState, currDist: real, distances: seq<real>) returns (next: ShaperState, reward: real)
      ensures next == Shape(s, currDist, distances).next && reward == Shape(s, currDist, distances).reward
    {
      // Rescuer movement reward
      var progress := if s.prevMovement.Some? then s.prevMovement.value - currDist else 0.0;
      assert progress == MovementProgress(s.prevMovement, currDist);
      var movement := Smooth(s.movement, progress);
      var movementQueue, movementReward := movement.window, movement.term;

      // Asteroid avoidance reward
      var prevAvoidance, avoidanceQueue, avoidanceReward := AvoidanceSignal(s.prevAvoidance, s.avoidance, distances);

      next := ShaperState(Some(currDist), prevAvoidance, movementQueue, avoidanceQueue);
      reward := 1000.0 * movementReward + avoidanceReward;
      ShapeFromSignals(s, currDist, distances, Smoothed(movementQueue, movementReward),
                       prevAvoidance, Smoothed(avoidanceQueue, avoidanceReward));
    }

    /**
     * `reward_function`: the movement and avoidance windows advance as the shaper
     * prescribes on the goal distance of `obs` and the hit-box distances below 130;
     * `boxes` are the asteroids' hit boxes in list order.
     */
    method RewardFunction(obs: Observation, rescuerBox: seq<Point>, boxes: seq<seq<Point>>) returns (reward: real)
      requires |boxes| == |game.asteroidsList|
      modifies this`prevMovementDistance, this`prevAvoidanceDistance, this`movementRewardQueue, this`avoidanceRewardQueue
      ensures var shaped := Shape(old(State()), dist(obs.Goal(), obs.Rescuer()), NearDistances(rescuerBox, boxes, dist));
              State() == shaped.next && reward == shaped.reward
      ensures old(State()).Bounded() ==> State().Bounded()
    {
      var currDist := dist(obs.Goal(), obs.Rescuer());
      var distances := NearAsteroidDistances(rescuerBox, boxes);
      var next;
      next, reward := ShapeSignals(State(), currDist, distances);
      prevMovementDistance, prevAvoidanceDistance := next.prevMovement, next.prevAvoidance;
      movementRewardQueue, avoidanceRewardQueue := next.movement, next.avoidance;
    }

    /**
     * `decision`: a mistake ends the episode with -10, a delivery with 10, and
     * otherwise the reward function scores the current observation.
     */
    method Decision(madeMistake: bool, rescuerBox: seq<Point>, boxes: seq<seq<Point>>) returns (d: Result<Decided>)
      requires screenWidth > 0 && |boxes| == |game.asteroidsList|
      modifies this`prevMovementDistance, this`prevAvoidanceDistance, this`movementRewardQueue, this`avoidanceRewardQueue
      ensures old(Valid()) ==> Valid()
      ensures (d, State()) == Decide(madeMistake, old(rescuedAlfred), GetObs(), old(State()),
                                     NearDistances(rescuerBox, boxes, dist), dist)
      ensures old(State()).Bounded() ==> State().Bounded()
    {
      if madeMistake {
        d := Ok(Decided(true, None, -10.0));
      } else {
        var done := rescuedAlfred;
        if done {
          d := Ok(Decided(true, None, 10.0));
        } else {
          var obs := GetObs();
          if obs.Err? {
            d := Err(obs.error);
          } else {
            var reward := RewardFunction(obs.value, rescuerBox, boxes);
            d := Ok(Decided(false, Some(obs.value), reward));
          }
        }
      }
    }

    /**
     * The action loop of `step`: one MOVEMENT move per action, pushing the game's
     * rescuer with the mapped force, until the first action the mapping lacks
     * (where `step` raises KeyError); returns how many moves it queued.
     */
    method QueueActions(actions: seq<int>) returns (n: nat)
      requires game.Valid() && game.MovesOwnRescuer(game.actionList)
      modifies game`actionList
      ensures n == MappedPrefix(actions)
      ensures game.Valid() && game.MovesOwnRescuer(game.actionList)
      ensures ImpulsesOf(game.actionList) == ImpulsesOf(old(game.actionList)) + Thrusts(actions[..n], game.TheRescuer())
      ensures AnyRescuerMove(game.actionList) <==> AnyRescuerMove(old(game.actionList)) || n > 0
      ensures game.Start() == old(game.Start())
    {
      var rescuer := game.rescuerList[0];
      n := 0;
      while n < |actions|
        invariant 0 <= n <= |actions|
        invariant forall j :: 0 <= j < n ==> ActionMapping(actions[j]).Some?
        invariant ImpulsesOf(game.actionList) == ImpulsesOf(old(game.actionList)) + Thrusts(actions[..n], rescuer)
        invariant game.Valid() && game.MovesOwnRescuer(game.actionList)
        invariant AnyRescuerMove(game.actionList) <==> AnyRescuerMove(old(game.actionList)) || n > 0
      {
        var force := ActionMapping(actions[n]);
        if force.None? {
          return;
        }
        var move := new Move("MOVEMENT", RescuerBody(rescuer), force.value);
        assert actions[..n + 1] == actions[..n] + [actions[n]];
        ImpulsesOfAppend(game.actionList, move);
        ThrustsAppend(actions[..n], actions[n], rescuer);
        game.actionList := game.actionList + [move];
        assert game.actionList[|game.actionList| - 1].sprite.RescuerBody?;
        n := n + 1;
      }
    }

    /**
     * The game half of `step`: queue the moves, and when every action is known run
     * one game tick and note a rescue exactly when the carry flag went from true to
     * false. Returns how many moves were queued and whether the tick was a mistake.
     */
    method Advance(actions: seq<int>, tick: PhysicsStep, spawns: seq<SpawnDraw>, hits: set<nat>)
      returns (n: nat, madeMistake: bool)
      requires Valid() && game.Feasible(tick)
      requires ValidSpawns(spawns, game.SpawnArena())
      requires Grow(MoveTo(game.asteroidsList, tick.asteroidsAt), 0, spawns, game.nextId, game.SpawnArena()).Some?
      modifies this`rescuedAlfred
      modifies game`actionList, game`impulses, game`pickUp, game`delivery, game`resourceList, game`alienList
      modifies game`asteroidsList, game`nextId, game`collision, game.rescuerList[0], game.resourceList
      ensures n == MappedPrefix(actions)
      ensures Valid() && State() == old(State())
      ensures n < |actions| ==>
                && !rescuedAlfred
                && game.Start() == old(game.Start()) && game.impulses == old(game.impulses)
                && ImpulsesOf(game.actionList) == ImpulsesOf(old(game.actionList)) + Thrusts(actions[..n], game.TheRescuer())
      ensures n == |actions| ==>
                && game.TickedFrom(old(game.Start()), AnyRescuerMove(old(game.actionList)) || actions != [], tick, spawns, hits)
                && (madeMistake <==> game.HitsAsteroid(hits) || game.RescuerBeyond())
                && rescuedAlfred == (old(game.Carrying()) && !game.Carrying())
                && var moved := MoveTo(old(game.asteroidsList), tick.asteroidsAt);
                   var g := Grow(moved, 0, spawns, old(game.nextId), game.SpawnArena()).value;
                   && |moved| <= |g| <= |moved| + |spawns|
                   && game.impulses == old(game.impulses) + (ImpulsesOf(old(game.actionList)) + Thrusts(actions, game.TheRescuer()))
                                       + SpawnImpulses(g[|moved|..], spawns, game.SpawnArena())
    {
      rescuedAlfred := false;
      n := QueueActions(actions);
      if n < |actions| {
        return n, false;
      }
      assert actions[..n] == actions;
      madeMistake := Tick(tick, spawns, hits);
    }

    /**
     * One game tick inside `step`, and the rescue note: `rescued_alfred` is set exactly
     * when the rescuer carried the resource before the tick and does not after it.
     */
    method Tick(tick: PhysicsStep, spawns: seq<SpawnDraw>, hits: set<nat>) returns (madeMistake: bool)
      requires game.Valid() && game.MovesOwnRescuer(game.actionList) && game.Feasible(tick)
      requires ValidSpawns(spawns, game.SpawnArena())
      requires Grow(MoveTo(game.asteroidsList, tick.asteroidsAt), 0, spawns, game.nextId, game.SpawnArena()).Some?
      requires !rescuedAlfred
      modifies this`rescuedAlfred
      modifies game`actionList, game`impulses, game`pickUp, game`delivery, game`resourceList, game`alienList
      modifies game`asteroidsList, game`nextId, game`collision, game.rescuerList[0], game.resourceList
      ensures game.Valid() && game.TickedFrom(old(game.Start()), AnyRescuerMove(old(game.actionList)), tick, spawns, hits)
      ensures game.Carrying() && game.pickUp > old(game.pickUp) ==> fresh(game.Carried())
      ensures madeMistake <==> game.HitsAsteroid(hits) || game.RescuerBeyond()
      ensures rescuedAlfred == (old(game.Carrying()) && !game.Carrying())
      ensures var moved := MoveTo(old(game.asteroidsList), tick.asteroidsAt);
              var g := Grow(moved, 0, spawns, old(game.nextId), game.SpawnArena()).value;
              && |moved| <= |g| <= |moved| + |spawns|
              && game.impulses == old(game.impulses) + ImpulsesOf(old(game.actionList)) + SpawnImpulses(g[|moved|..], spawns, game.SpawnArena())
    {
      var rescuer := game.rescuerList[0];
      var hasCarriedResource := rescuer.carriesResource;
      madeMistake := game.CustomUpdate(tick, spawns, hits);
      if hasCarriedResource != rescuer.carriesResource && hasCarriedResource {
        rescuedAlfred := true;
      }
    }

    /**
     * `step`: queue one move per action (KeyError at the first unknown action, with the
     * earlier moves left queued), run one game tick, note a rescue, and decide.
     * Truncation is never reported and the info map is empty.
     */
    method Step(actions: seq<int>, tick: PhysicsStep, spawns: seq<SpawnDraw>, hits: set<nat>,
                rescuerBox: seq<Point>, boxes: seq<seq<Point>>)
      returns (r: Result<StepResult>)
      requires Valid() && game.Feasible(tick)
      requires ValidSpawns(spawns, game.SpawnArena())
      requires Grow(MoveTo(game.asteroidsList, tick.asteroidsAt), 0, spawns, game.nextId, game.SpawnArena()).Some?
      requires |boxes| == AsteroidCount
      modifies this`rescuedAlfred, this`prevMovementDistance, this`prevAvoidanceDistance
      modifies this`movementRewardQueue, this`avoidanceRewardQueue
      modifies game`actionList, game`impulses, game`pickUp, game`delivery, game`resourceList, game`alienList
      modifies game`asteroidsList, game`nextId, game`collision, game.rescuerList[0], game.resourceList
      ensures Valid()
      ensures var n := MappedPrefix(actions);
              n < |actions| ==>
                && r == Err(KeyError(actions[n])) && !rescuedAlfred && State() == old(State())
                && game.Start() == old(game.Start()) && game.impulses == old(game.impulses)
                && ImpulsesOf(game.actionList) == ImpulsesOf(old(game.actionList)) + Thrusts(actions[..n], game.TheRescuer())
      ensures MappedPrefix(actions) == |actions| ==>
                && game.TickedFrom(old(game.Start()), AnyRescuerMove(old(game.actionList)) || actions != [], tick, spawns, hits)
                && rescuedAlfred == (old(game.Carrying()) && !game.Carrying())
      ensures MappedPrefix(actions) == |actions| ==>
                var mistake := game.HitsAsteroid(hits) || game.RescuerBeyond();
                var decided := Decide(mistake, rescuedAlfred, GetObs(), old(State()), NearDistances(rescuerBox, boxes, dist), dist);
                r == AsStep(decided.0) && State() == decided.1
      ensures MappedPrefix(actions) == |actions| ==>
                var moved := MoveTo(old(game.asteroidsList), tick.asteroidsAt);
                var g := Grow(moved, 0, spawns, old(game.nextId), game.SpawnArena()).value;
                && |moved| <= |g| <= |moved| + |spawns|
                && game.impulses == old(game.impulses) + (ImpulsesOf(old(game.actionList)) + Thrusts(actions, game.TheRescuer()))
                                    + SpawnImpulses(g[|moved|..], spawns, game.SpawnArena())
    {
      var n, madeMistake := Advance(actions, tick, spawns, hits);
      if n < |actions| {
        return Err(KeyError(actions[n]));
      }
      r := Conclude(madeMistake, rescuerBox, boxes, old(game.Start()),
                    AnyRescuerMove(old(game.actionList)) || actions != [], tick, spawns, hits);
    }

    /**
     * The end of `step`: `decision`, and its outcome returned as the step's tuple. The
     * game is left alone, so what the tick made of it (given as `before`, `pushed`,
     * `tick`, `spawns` and `hits`) still holds afterwards.
     */
    method Conclude(madeMistake: bool, rescuerBox: seq<Point>, boxes: seq<seq<Point>>, ghost before: TickStart,
                    ghost pushed: bool, ghost tick: PhysicsStep, ghost spawns: seq<SpawnDraw>, ghost hits: set<nat>)
      returns (r: Result<StepResult>)
      requires Valid() && |boxes| == |game.asteroidsList|
      requires game.TickedFrom(before, pushed, tick, spawns, hits)
      requires madeMistake <==> game.HitsAsteroid(hits) || game.RescuerBeyond()
      modifies this`prevMovementDistance, this`prevAvoidanceDistance, this`movementRewardQueue, this`avoidanceRewardQueue
      ensures Valid() && game.TickedFrom(before, pushed, tick, spawns, hits)
      ensures var decided := Decide(game.HitsAsteroid(hits) || game.RescuerBeyond(), rescuedAlfred, GetObs(), old(State()), NearDistances(rescuerBox, boxes, dist), dist);
              r == AsStep(decided.0) && State() == decided.1
    {
      var decided := Decision(madeMistake, rescuerBox, boxes);
      r := AsStep(decided);
    }

    /**
     * `reset` (state clearing): a reset game, no remembered distances, empty windows,
     * and the first observation (the alien as the goal).
     */
    method Reset(draws: ResetDraws) returns (obs: Observation)
      requires screenWidth > 0 && game.ValidResetDraws(draws)
      modifies this, game
      ensures State() == Cleared && rescuedAlfred == old(rescuedAlfred)
      ensures game.Valid() && game.ResetBy(draws, old(game.nextId)) && fresh(game.TheRescuer())
      ensures game.pickUp == old(game.pickUp) && game.delivery == old(game.delivery) && game.collision == old(game.collision)
      ensures GetObs() == Ok(obs)
      ensures var round := draws.placements[ChosenRound(draws.placements)];
              obs == Normalized(Point(round.x2 as real, round.y2 as real),
                                Point(draws.rescuerX as real, draws.rescuerY as real), screenWidth as real)
      ensures game.actionList == old(game.actionList)
      ensures old(game.actionList) == [] ==> Valid()
    {
      game.Reset(draws);
      prevMovementDistance, prevAvoidanceDistance := None, None;
      movementRewardQueue, avoidanceRewardQueue := [], [];
      var r := GetObs();
      obs := r.value;
    }
  }

  /**
   * A pick-up and a delivery reported in the same tick, starting free, with no asteroid
   * hit and the rescuer left on screen: the flag shows no true-to-false change, so the
   * episode goes on, and `get_obs` indexes the now empty alien list.
   */
  method SameTickRescueRaises(e: Environment, actions: seq<int>, tick: PhysicsStep, spawns: seq<SpawnDraw>,
                              rescuerBox: seq<Point>, boxes: seq<seq<Point>>)
    returns (r: Result<StepResult>)
    requires e.Valid() && !e.game.Carrying() && |e.game.alienList| == 1
    requires tick.contacts == [RescuerAlien, RescuerMotherShip] && e.game.Feasible(tick)
    requires MappedPrefix(actions) == |actions|
    requires ValidSpawns(spawns, e.game.SpawnArena())
    requires Grow(MoveTo(e.game.asteroidsList, tick.asteroidsAt), 0, spawns, e.game.nextId, e.game.SpawnArena()).Some?
    requires var x := e.game.TheRescuer().extent;
             !BeyondScreen(tick.rescuerAt.x + x.minX, tick.rescuerAt.x + x.maxX,
                           tick.rescuerAt.y + x.minY, tick.rescuerAt.y + x.maxY, e.game.width, e.game.height)
    requires |boxes| == AsteroidCount
    modifies e, e.game, e.game.rescuerList[0], e.game.resourceList
    ensures r == Err(IndexError)
  {
    PickUpAndDeliveryInOneStep(e.game.pickUp, e.game.delivery);
    r := e.Step(actions, tick, spawns, {}, rescuerBox, boxes);
  }

  lemma ImpulsesOfAppend(moves: seq<Move>, m: Move)
    ensures ImpulsesOf(moves + [m]) == ImpulsesOf(moves) + [Impulse(m.sprite, m.force)]
  {
  }

  lemma ThrustsAppend(actions: seq<int>, a: int, rescuer: Rescuer)
    requires forall j :: 0 <= j < |actions| ==> ActionMapping(actions[j]).Some?
    requires ActionMapping(a).Some?
    ensures Thrusts(actions + [a], rescuer) == Thrusts(actions, rescuer) + [Impulse(RescuerBody(rescuer), ActionMapping(a).value)]
  {
  }
}
