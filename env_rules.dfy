/**
 * The pure rules of env.py: the action table, the numerical observation, the
 * hit-box distance, and the sliding-window reward shaper as a function of its
 * remembered state. The class in env.dfy is proved against these definitions.
 */
module EnvRules {
  import opened Common

  // ---------------------------------------------------------------------------
  // Actions (env.py: action_mapping)
  // ---------------------------------------------------------------------------

  /** The impulse magnitude of every movement action. */
  const Thrust: real := 250.0

  /**
   * `action_mapping[action]`: 0 left, 1 down, 2 right, 3 up (arcade's y grows
   * upwards); any other key raises KeyError, modelled as None.
   */
  function ActionMapping(action: int): (f: Option<Point>)
    ensures f.Some? <==> 0 <= action < 4
    ensures f.Some? ==> (f.value.x == 0.0 || f.value.y == 0.0)
    ensures f.Some? ==> f.value.x * f.value.x + f.value.y * f.value.y == Thrust * Thrust
  {
    match action
    case 0 => Some(Point(-Thrust, 0.0))
    case 1 => Some(Point(0.0, -Thrust))
    case 2 => Some(Point(Thrust, 0.0))
    case 3 => Some(Point(0.0, Thrust))
    case _ => None
  }

  /** How many actions `step` queues before the first one the mapping lacks (all of them when none is missing). */
  function MappedPrefix(actions: seq<int>): (n: nat)
    ensures n <= |actions|
    ensures forall j :: 0 <= j < n ==> ActionMapping(actions[j]).Some?
    ensures n < |actions| ==> ActionMapping(actions[n]).None?
  {
    if actions == [] || ActionMapping(actions[0]).None? then 0
    else 1 + MappedPrefix(actions[1..])
  }

  /** Distinct actions push in distinct directions. */
  lemma ActionMappingInjective(a: int, b: int)
    requires ActionMapping(a).Some? && ActionMapping(a) == ActionMapping(b)
    ensures a == b
  {
  }

  // ---------------------------------------------------------------------------
  // Observation (env.py: get_obs, numerical part)
  // ---------------------------------------------------------------------------

  /** `obs["numerical"]`: goal and rescuer centres, all four divided by the screen width. */
  datatype Observation = Observation(goalX: real, goalY: real, rescuerX: real, rescuerY: real) {
    function Goal(): Point { Point(goalX, goalY) }
    function Rescuer(): Point { Point(rescuerX, rescuerY) }
  }

  /**
   * The numerical observation of a goal centre and a rescuer centre. Both
   * coordinates are divided by the width, the y coordinates too.
   */
  function Normalized(goal: Point, rescuer: Point, width: real): (o: Observation)
    requires width > 0.0
    ensures o.goalX * width == goal.x && o.goalY * width == goal.y
    ensures o.rescuerX * width == rescuer.x && o.rescuerY * width == rescuer.y
  {
    Observation(goal.x / width, goal.y / width, rescuer.x / width, rescuer.y / width)
  }

  /** Dividing y by the width keeps a tall screen's top edge above 1 (the observation box is [0, 1]). */
  lemma NormalizedYCanLeaveUnitBox(width: real, height: real)
    requires 0.0 < width < height
    ensures Normalized(Point(0.0, height), Point(0.0, 0.0), width).goalY > 1.0
  {
  }

  // ---------------------------------------------------------------------------
  // Hit-box distance (env.py: _get_distance_between_sprites)
  // ---------------------------------------------------------------------------

  /** `if distance < min_distance: min_distance = distance` */
  function MinWith(m: Extended, d: real): (r: Extended)
    ensures r.Finite?
    ensures r.AtMost(d)
    ensures m.Finite? ==> r.AtMost(m.value)
    ensures r == m || r == Finite(d)
  {
    if m.Infinity? || d < m.value then Finite(d) else m
  }

  /** Folding one more distance into a running minimum commutes with combining two minima. */
  lemma MinWithMinOf(a: Extended, r: Extended, d: real)
    ensures MinWith(MinOf(a, r), d) == MinOf(a, MinWith(r, d))
  {
  }

  /** The smaller of two extended values. */
  function MinOf(a: Extended, b: Extended): Extended
  {
    if b.Infinity? then a else MinWith(a, b.value)
  }

  /** The inner loop of _get_distance_between_sprites: the least distance from `p` to the points of `q`. */
  function RowMin(p: Point, q: seq<Point>, dist: (Point, Point) -> real): (m: Extended)
    ensures m.Infinity? <==> q == []
    ensures forall j :: 0 <= j < |q| ==> m.AtMost(dist(p, q[j]))
    ensures m.Finite? ==> exists j :: 0 <= j < |q| && m.value == dist(p, q[j])
    decreases |q|
  {
    if q == [] then Infinity
    else
      var m := MinWith(RowMin(p, q[..|q| - 1], dist), dist(p, q[|q| - 1]));
      assert forall j :: 0 <= j < |q| - 1 ==> q[..|q| - 1][j] == q[j];
      m
  }

  /**
   * The value _get_distance_between_sprites returns: the least distance over every
   * pair of hit-box points, or infinity when either hit box has no points.
   */
  function MinPair(p1: seq<Point>, p2: seq<Point>, dist: (Point, Point) -> real): (m: Extended)
    ensures m.Infinity? <==> (p1 == [] || p2 == [])
    ensures forall i, j :: 0 <= i < |p1| && 0 <= j < |p2| ==> m.AtMost(dist(p1[i], p2[j]))
    ensures m.Finite? ==> exists i, j :: 0 <= i < |p1| && 0 <= j < |p2| && m.value == dist(p1[i], p2[j])
    decreases |p1|
  {
    if p1 == [] then Infinity
    else
      var front := p1[..|p1| - 1];
      var m := MinOf(MinPair(front, p2, dist), RowMin(p1[|p1| - 1], p2, dist));
      assert forall i :: 0 <= i < |p1| - 1 ==> front[i] == p1[i];
      m
  }

  /** The hit-box distance does not depend on which sprite comes first. */
  lemma MinPairSymmetric(a: seq<Point>, b: seq<Point>, dist: (Point, Point) -> real)
    requires IsMetric(dist)
    ensures MinPair(a, b, dist) == MinPair(b, a, dist)
  {
    if a != [] && b != [] {
      MinPairAtMostTransposed(a, b, dist);
      MinPairAtMostTransposed(b, a, dist);
    }
  }

  /** The least distance over a × b is at most the least one over b × a. */
  lemma MinPairAtMostTransposed(a: seq<Point>, b: seq<Point>, dist: (Point, Point) -> real)
    requires IsMetric(dist) && a != [] && b != []
    ensures MinPair(a, b, dist).AtMost(MinPair(b, a, dist).value)
  {
    var k, l :| 0 <= k < |b| && 0 <= l < |a| && MinPair(b, a, dist).value == dist(b[k], a[l]);
    assert dist(b[k], a[l]) == dist(a[l], b[k]);
    assert MinPair(a, b, dist).AtMost(dist(a[l], b[k]));
  }


  // ---------------------------------------------------------------------------
  // Reward shaper (env.py: reward_function)
  // ---------------------------------------------------------------------------

  /** The most entries either reward deque keeps. */
  const WindowCapacity: nat := 10

  /** Only asteroids strictly closer than this feed the avoidance signal. */
  const AvoidanceRange: real := 130.0

  /** The weight of the movement signal in the returned reward. */
  const MovementScale: real := 1000.0

  /** Python's `sum` over a deque. */
  function Sum(s: seq<real>): real
  {
    if s == [] then 0.0 else s[0] + Sum(s[1..])
  }

  lemma {:induction false} SumAppend(s: seq<real>, x: real)
    ensures Sum(s + [x]) == Sum(s) + x
  {
    if s != [] {
      assert (s + [x])[1..] == s[1..] + [x];
      SumAppend(s[1..], x);
    }
  }

  /** Python's `min` over a non-empty list. */
  function Minimum(s: seq<real>): (m: real)
    requires s != []
    ensures m in s
    ensures forall k :: 0 <= k < |s| ==> m <= s[k]
  {
    if |s| == 1 then s[0]
    else
      var rest := Minimum(s[1..]);
      assert forall k :: 1 <= k < |s| ==> s[k] == s[1..][k - 1];
      if s[0] <= rest then s[0] else rest
  }

  /** `len(queue) if queue else 1`: the divisor of the average, read before the push. */
  function Divisor(window: seq<real>): (n: nat)
    ensures n >= 1
    ensures window != [] ==> n == |window|
  {
    if window == [] then 1 else |window|
  }

  /** The deque after one push: `popleft()` first when the divisor is 10, then `append`. */
  function Push(window: seq<real>, progress: real): (w: seq<real>)
    ensures |w| >= 1
    ensures |window| <= WindowCapacity ==> |w| <= WindowCapacity
    ensures w[|w| - 1] == progress
    ensures w[..|w| - 1] == if |window| == WindowCapacity then window[1..] else window
  {
    if Divisor(window) == WindowCapacity then window[1..] + [progress] else window + [progress]
  }

  /** One smoothed signal: the deque after the push and the signal's reward term. */
  datatype Smoothed = Smoothed(window: seq<real>, term: real)

  /** `0.5 * progress + 0.5 * (sum(queue) / n)`, the sum taken after the push, n before it. */
  function Smooth(window: seq<real>, progress: real): Smoothed
  {
    var w := Push(window, progress);
    Smoothed(w, 0.5 * progress + 0.5 * (Sum(w) / Divisor(window) as real))
  }

  /** The entry a push evicts: the oldest one of a full window, otherwise none (0). */
  function Evicted(window: seq<real>): real
  {
    if |window| == WindowCapacity then window[0] else 0.0
  }

  /**
   * The smoothed term from the old window alone: the pushed progress enters the sum
   * once and an evicted entry leaves it.
   */
  lemma SmoothIncremental(window: seq<real>, progress: real)
    ensures Smooth(window, progress).term
         == 0.5 * progress + 0.5 * ((Sum(window) - Evicted(window) + progress) / Divisor(window) as real)
  {
    PushSum(window, progress);
  }

  /** The sum over the deque after a push: the pushed progress enters, an evicted entry leaves. */
  lemma PushSum(window: seq<real>, progress: real)
    ensures Sum(Push(window, progress)) == Sum(window) - Evicted(window) + progress
  {
    if |window| == WindowCapacity {
      SumAppend(window[1..], progress);
      assert Sum(window) == window[0] + Sum(window[1..]);
    } else {
      SumAppend(window, progress);
    }
  }


  /** With a full window the term is the true mean of the ten entries after the push. */
  lemma SmoothFullWindowIsMean(window: seq<real>, progress: real)
    requires |window| == WindowCapacity
    ensures |Smooth(window, progress).window| == WindowCapacity
    ensures Smooth(window, progress).term
         == 0.5 * progress + 0.5 * (Sum(Smooth(window, progress).window) / WindowCapacity as real)
  {
  }

  /**
   * With a partly filled window the sum after the push holds one entry more than the
   * divisor counts, so the "average" over-weights the window.
   */
  lemma SmoothPartialWindowOvercounts(window: seq<real>, progress: real)
    requires 0 < |window| < WindowCapacity
    ensures |Smooth(window, progress).window| == |window| + 1
    ensures Smooth(window, progress).term
         == 0.5 * progress + 0.5 * (Sum(Smooth(window, progress).window) / (|window| as real))
  {
  }

  /** On an empty window the average term is the progress itself. */
  lemma SmoothFromEmpty(progress: real)
    ensures Smooth([], progress) == Smoothed([progress], progress)
  {
    assert Push([], progress) == [progress];
    assert Divisor([]) == 1;
    assert Sum([progress]) == progress by {
      assert Sum([progress]) == progress + Sum([]);
    }
  }

  /** What reward_function remembers between calls. */
  datatype ShaperState = ShaperState(
    prevMovement: Option<real>,    // prev_movement_distance
    prevAvoidance: Option<real>,   // prev_avoidance_distance
    movement: seq<real>,           // movement_reward_queue, oldest first
    avoidance: seq<real>)          // avoidance_reward_queue, oldest first
  {
    ghost predicate Bounded() {
      |movement| <= WindowCapacity && |avoidance| <= WindowCapacity
    }
  }

  /** The state reset() leaves: no remembered distances, both deques empty. */
  const Cleared: ShaperState := ShaperState(None, None, [], [])

  /** One reward_function call: the next state, the two signal terms and the reward. */
  datatype Shaped = Shaped(next: ShaperState, movementReward: real, avoidanceReward: real, reward: real)

  /** Movement progress: the decrease of the goal distance, 0 without a remembered distance. */
  function MovementProgress(prev: Option<real>, curr: real): real
  {
    if prev.Some? then prev.value - curr else 0.0
  }

  /** Avoidance progress: the increase of the nearest-asteroid distance, 0 without a remembered one. */
  function AvoidanceProgress(prev: Option<real>, curr: real): real
  {
    if prev.Some? then curr - prev.value else 0.0
  }

  /**
   * reward_function on the distance `currDist` between goal and rescuer in the
   * observation and the list `near` of hit-box distances of asteroids in range.
   */
  function Shape(s: ShaperState, currDist: real, near: seq<real>): (r: Shaped)
    ensures s.Bounded() ==> r.next.Bounded()
    ensures r.next.prevMovement == Some(currDist)
    ensures r.reward == MovementScale * r.movementReward + r.avoidanceReward
  {
    var m := Smooth(s.movement, MovementProgress(s.prevMovement, currDist));
    if near == [] then
      var a := Smooth([], 0.0);
      Shaped(ShaperState(Some(currDist), s.prevAvoidance, m.window, a.window),
             m.term, a.term, MovementScale * m.term + a.term)
    else
      var curr := Minimum(near);
      var a := Smooth(s.avoidance, AvoidanceProgress(s.prevAvoidance, curr));
      Shaped(ShaperState(Some(currDist), Some(curr), m.window, a.window),
             m.term, a.term, MovementScale * m.term + a.term)
  }

  /**
   * Shape assembled from its two signals: the movement signal pushed onto the movement
   * deque and the avoidance signal (cleared when nothing is in range).
   */
  lemma ShapeFromSignals(s: ShaperState, currDist: real, near: seq<real>, m: Smoothed, prevAvoidance: Option<real>, a: Smoothed)
    requires m == Smooth(s.movement, MovementProgress(s.prevMovement, currDist))
    requires near == [] ==> prevAvoidance == s.prevAvoidance && a == Smooth([], 0.0)
    requires near != [] ==> prevAvoidance == Some(Minimum(near)) && a == Smooth(s.avoidance, AvoidanceProgress(s.prevAvoidance, Minimum(near)))
    ensures Shape(s, currDist, near) == Shaped(ShaperState(Some(currDist), prevAvoidance, m.window, a.window),
                                               m.term, a.term, MovementScale * m.term + a.term)
  {
  }

  /**
   * No asteroid in range: the avoidance deque is left as exactly [0], its term is 0,
   * and the remembered avoidance distance is kept (it is not cleared).
   */
  lemma ShapeWithoutNearAsteroid(s: ShaperState, currDist: real)
    ensures Shape(s, currDist, []).next.avoidance == [0.0]
    ensures Shape(s, currDist, []).avoidanceReward == 0.0
    ensures Shape(s, currDist, []).next.prevAvoidance == s.prevAvoidance
    ensures Shape(s, currDist, []).reward == MovementScale * Shape(s, currDist, []).movementReward
  {
    SmoothFromEmpty(0.0);
  }

  /** Asteroids in range: the nearest one's distance is remembered and drives the progress. */
  lemma ShapeWithNearAsteroid(s: ShaperState, currDist: real, near: seq<real>)
    requires near != []
    ensures Shape(s, currDist, near).next.prevAvoidance == Some(Minimum(near))
    ensures Shape(s, currDist, near).next.avoidance
         == Push(s.avoidance, AvoidanceProgress(s.prevAvoidance, Minimum(near)))
  {
  }

  /** The first call after reset scores 0: both progresses are 0 and both windows become [0]. */
  lemma FirstCallAfterReset(currDist: real, near: seq<real>)
    ensures Shape(Cleared, currDist, near).reward == 0.0
    ensures Shape(Cleared, currDist, near).next.movement == [0.0]
    ensures Shape(Cleared, currDist, near).next.avoidance == [0.0]
  {
    SmoothFromEmpty(0.0);
    assert MovementProgress(None, currDist) == 0.0;
    assert near != [] ==> AvoidanceProgress(None, Minimum(near)) == 0.0;
  }

  /**
   * A worked example: distance 1 after reset, then 0.8. The second call's progress
   * is 0.2, the movement deque is [0, 0.2], and because the sum is divided by the
   * pre-push length 1 the movement term is 0.2 (not the mean 0.1).
   */
  lemma TwoCallMovementExample()
    ensures var first := Shape(Cleared, 1.0, []);
            var second := Shape(first.next, 0.8, []);
            second.next.movement == [0.0, 0.2] && second.movementReward == 0.2
  {
    FirstCallAfterReset(1.0, []);
    ShapeWithoutNearAsteroid(Cleared, 1.0);
    var first := Shape(Cleared, 1.0, []);
    assert first.next == ShaperState(Some(1.0), None, [0.0], [0.0]);
    assert MovementProgress(Some(1.0), 0.8) == 0.2;
    SecondPushOnto();
  }

  /** Pushing 0.2 onto [0]: the divisor is the old length 1, the sum after the push is 0.2. */
  lemma SecondPushOnto()
    ensures Smooth([0.0], 0.2) == Smoothed([0.0, 0.2], 0.2)
  {
    assert Push([0.0], 0.2) == [0.0, 0.2];
    assert Divisor([0.0]) == 1;
    assert Sum([0.0, 0.2]) == 0.2 by {
      assert Sum([0.2]) == 0.2 + Sum([]);
    }
  }


  /**
   * The asteroid distances reward_function collects: every hit-box distance strictly
   * below 130, in asteroid order.
   */
  function NearDistances(rescuerBox: seq<Point>, boxes: seq<seq<Point>>, dist: (Point, Point) -> real)
    : (near: seq<real>)
    ensures |near| <= |boxes|
    ensures forall k :: 0 <= k < |near| ==> near[k] < AvoidanceRange
    decreases |boxes|
  {
    if boxes == [] then []
    else
      var d := MinPair(rescuerBox, boxes[|boxes| - 1], dist);
      var near := NearDistances(rescuerBox, boxes[..|boxes| - 1], dist);
      if d.Below(AvoidanceRange) then near + [d.value] else near
  }

  /**
   * The collected list holds exactly the in-range distances: every asteroid whose
   * hit-box distance is below 130 contributes it, and every entry is one of them.
   */
  lemma {:induction false} NearDistancesExact(rescuerBox: seq<Point>, boxes: seq<seq<Point>>, dist: (Point, Point) -> real)
    ensures forall b :: 0 <= b < |boxes| && MinPair(rescuerBox, boxes[b], dist).Below(AvoidanceRange)
              ==> MinPair(rescuerBox, boxes[b], dist).value in NearDistances(rescuerBox, boxes, dist)
    ensures forall x :: x in NearDistances(rescuerBox, boxes, dist) ==>
              exists b :: 0 <= b < |boxes| && MinPair(rescuerBox, boxes[b], dist) == Finite(x)
    decreases |boxes|
  {
    if boxes != [] {
      var front := boxes[..|boxes| - 1];
      NearDistancesExact(rescuerBox, front, dist);
      assert forall b :: 0 <= b < |front| ==> front[b] == boxes[b];
    }
  }

  // ---------------------------------------------------------------------------
  // Episode decision (env.py: decision)
  // ---------------------------------------------------------------------------

  /** The reward on the tick of a mistake (asteroid hit or screen edge crossed). */
  const MistakeReward: real := -10.0
  /** The reward on the tick the alien is delivered. */
  const RescueReward: real := 10.0

  /** What `decision` hands back: done, the observation (None for `{}`) and the reward. */
  datatype Decided = Decided(done: bool, obs: Option<Observation>, reward: real)

  /**
   * `decision` with the observation `get_obs` would produce (or the error it raises)
   * and the shaper state before the call; the second component is the shaper state
   * after it.
   */
  function Decide(madeMistake: bool, rescued: bool, obs: Result<Observation>, s: ShaperState,
                  near: seq<real>, dist: (Point, Point) -> real): (r: (Result<Decided>, ShaperState))
    ensures r.0.Err? <==> !madeMistake && !rescued && obs.Err?
    ensures r.0.Ok? ==> (r.0.value.done <==> madeMistake || rescued)
    ensures r.0.Ok? && r.0.value.done ==>
              r.0.value.obs == None && r.1 == s &&
              r.0.value.reward == (if madeMistake then MistakeReward else RescueReward)
    ensures r.0.Ok? && !r.0.value.done ==>
              obs.Ok? && r.0.value.obs == Some(obs.value) &&
              var shaped := Shape(s, dist(obs.value.Goal(), obs.value.Rescuer()), near);
              r.0.value.reward == shaped.reward && r.1 == shaped.next
    ensures r.0.Err? ==> r.0.error == obs.error && r.1 == s
  {
    if madeMistake then (Ok(Decided(true, None, MistakeReward)), s)
    else if rescued then (Ok(Decided(true, None, RescueReward)), s)
    else match obs
      case Err(e) => (Err(e), s)
      case Ok(o) =>
        var shaped := Shape(s, dist(o.Goal(), o.Rescuer()), near);
        (Ok(Decided(false, Some(o), shaped.reward)), shaped.next)
  }
}
