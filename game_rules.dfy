/**
 * The pure rules of game.py: plain arcade sprites as values, the screen test,
 * the random helpers with their draws passed in, and the asteroid maintenance
 * pass of custom_update as a function. The class in game.dfy is proved against
 * these definitions.
 */
module GameRules {
  import opened Common

  /** The asteroid population reset creates and maintenance keeps. */
  const AsteroidCount: nat := 8

  /**
   * A plain arcade Sprite (mothership, alien, asteroid) as a value: its centre and
   * hit-box extent; `id` stands for the object's identity.
   */
  datatype Sprite = Sprite(id: nat, centerX: real, centerY: real, extent: Extent) {
    function Left(): real { centerX + extent.minX }
    function Right(): real { centerX + extent.maxX }
    function Bottom(): real { centerY + extent.minY }
    function Top(): real { centerY + extent.maxY }
    function Center(): Point { Point(centerX, centerY) }
  }

  // ---------------------------------------------------------------------------
  // _has_moved_beyond_screen
  // ---------------------------------------------------------------------------

  /** True as soon as any edge of the box crosses the screen border (not only on a full exit). */
  predicate BeyondScreen(left: real, right: real, bottom: real, top: real, width: int, height: int) {
    left < 0.0 || right > width as real || bottom < 0.0 || top > height as real
  }

  predicate SpriteBeyond(s: Sprite, width: int, height: int) {
    BeyondScreen(s.Left(), s.Right(), s.Bottom(), s.Top(), width, height)
  }

  /** A sprite still mostly on screen but straddling the left border is already flagged. */
  lemma StraddlingSpriteIsBeyond(s: Sprite, width: int, height: int)
    requires s.Left() < 0.0 < s.centerX
    ensures SpriteBeyond(s, width, height)
  {
  }

  // ---------------------------------------------------------------------------
  // Random helpers: every `random` draw is a parameter, its range a precondition
  // ---------------------------------------------------------------------------

  /** `_get_random_coord(lb)`: `randint(lb, height - lb)`, used for x and y alike. */
  predicate CoordDraw(v: int, lb: int, height: int) {
    lb <= v <= height - lb
  }

  /** The four answers of `random.choice(['top', 'bottom', 'left', 'right'])`. */
  datatype Border = BorderTop | BorderBottom | BorderLeft | BorderRight

  /** The offset draw `randint(margin, width)` or `randint(margin, height)` of that border. */
  predicate OffsetDraw(border: Border, margin: int, offset: int, width: int, height: int) {
    if border == BorderTop || border == BorderBottom then margin <= offset <= width
    else margin <= offset <= height
  }

  /**
   * `_get_random_astroid_coord` given its draws: a point at distance `margin` from one
   * border ('top' puts it at y = margin, 'bottom' at y = height - margin).
   */
  function AsteroidCoord(border: Border, margin: int, offset: int, width: int, height: int): (p: Point)
    requires 15 <= margin <= 50
    requires OffsetDraw(border, margin, offset, width, height)
    ensures p.x == margin as real || p.x == (width - margin) as real
         || p.y == margin as real || p.y == (height - margin) as real
    ensures width >= 50 && height >= 50 ==>
              0.0 <= p.x <= width as real && 0.0 <= p.y <= height as real
  {
    match border
    case BorderTop => Point(offset as real, margin as real)
    case BorderBottom => Point(offset as real, (height - margin) as real)
    case BorderLeft => Point(margin as real, offset as real)
    case BorderRight => Point((width - margin) as real, offset as real)
  }

  /**
   * `_get_random_force`: the x part is `randint(50, 100)` left of the centre line and
   * `randint(-100, -50)` otherwise; y likewise against half the height. `drawX` and
   * `drawY` are the magnitudes drawn.
   */
  function RandomForce(center: Point, width: int, height: int, drawX: int, drawY: int): (f: Point)
    requires 50 <= drawX <= 100 && 50 <= drawY <= 100
    ensures center.x < width as real / 2.0 ==> 50.0 <= f.x <= 100.0
    ensures center.x >= width as real / 2.0 ==> -100.0 <= f.x <= -50.0
    ensures center.y < height as real / 2.0 ==> 50.0 <= f.y <= 100.0
    ensures center.y >= height as real / 2.0 ==> -100.0 <= f.y <= -50.0
  {
    Point(if center.x < width as real / 2.0 then drawX as real else -drawX as real,
          if center.y < height as real / 2.0 then drawY as real else -drawY as real)
  }

  /** The force always points towards the screen centre (inward drift). */
  lemma RandomForcePointsInward(center: Point, width: int, height: int, drawX: int, drawY: int)
    requires 50 <= drawX <= 100 && 50 <= drawY <= 100
    ensures var f := RandomForce(center, width, height, drawX, drawY);
            (f.x > 0.0 <==> center.x < width as real / 2.0) && (f.y > 0.0 <==> center.y < height as real / 2.0)
  {
  }

  /** The four coordinates `_no_overlapping_coords` draws in one round. */
  datatype Placement = Placement(x1: int, y1: int, x2: int, y2: int)

  /** `math.sqrt((x2 - x1)**2 + (y2 - y1)**2) > 200`, stated on the squares. */
  predicate FarApart(p: Placement) {
    (p.x2 - p.x1) * (p.x2 - p.x1) + (p.y2 - p.y1) * (p.y2 - p.y1) > 200 * 200
  }

  /**
   * The round `_no_overlapping_coords` settles on: the first whose two points lie
   * more than 200 apart, or the last one drawn when none does.
   */
  function ChosenRound(rounds: seq<Placement>): (c: nat)
    requires rounds != []
    ensures c < |rounds|
    ensures forall k :: 0 <= k < c ==> !FarApart(rounds[k])
    ensures FarApart(rounds[c]) || c == |rounds| - 1
  {
    if |rounds| == 1 || FarApart(rounds[0]) then 0
    else
      var c := 1 + ChosenRound(rounds[1..]);
      assert forall k :: 1 <= k < |rounds| ==> rounds[k] == rounds[1..][k - 1];
      c
  }

  // ---------------------------------------------------------------------------
  // Asteroid maintenance (custom_update)
  // ---------------------------------------------------------------------------

  /** The draws behind one respawned asteroid: its border point and its force magnitudes. */
  datatype SpawnDraw = SpawnDraw(border: Border, margin: int, offset: int, forceX: int, forceY: int)

  /** Screen size and the hit-box extent of a respawned asteroid (texture at scale 1/3). */
  datatype Arena = Arena(width: int, height: int, spawnExtent: Extent)

  predicate ValidSpawn(d: SpawnDraw, width: int, height: int) {
    && 15 <= d.margin <= 50
    && OffsetDraw(d.border, d.margin, d.offset, width, height)
    && 50 <= d.forceX <= 100 && 50 <= d.forceY <= 100
  }

  predicate ValidSpawns(draws: seq<SpawnDraw>, arena: Arena) {
    forall k :: 0 <= k < |draws| ==> ValidSpawn(draws[k], arena.width, arena.height)
  }

  /** The asteroid custom_update creates from one draw, with identity `id`. */
  function Respawn(d: SpawnDraw, id: nat, arena: Arena): (s: Sprite)
    requires ValidSpawn(d, arena.width, arena.height)
    ensures s.id == id
  {
    var p := AsteroidCoord(d.border, d.margin, d.offset, arena.width, arena.height);
    Sprite(id, p.x, p.y, arena.spawnExtent)
  }

  /** The impulse custom_update applies to the asteroid it respawned. */
  function SpawnForce(d: SpawnDraw, s: Sprite, arena: Arena): Point
    requires ValidSpawn(d, arena.width, arena.height)
  {
    RandomForce(s.Center(), arena.width, arena.height, d.forceX, d.forceY)
  }

  /** An asteroid spawned on the left line whose hit box reaches past the border is flagged at once. */
  lemma RespawnCanBeBeyond(d: SpawnDraw, id: nat, arena: Arena)
    requires ValidSpawn(d, arena.width, arena.height) && d.border == BorderLeft
    requires d.margin as real + arena.spawnExtent.minX < 0.0
    ensures SpriteBeyond(Respawn(d, id, arena), arena.width, arena.height)
  {
  }

  /**
   * The walk of `for astroid in self.asteroids_list`, which also visits the asteroids
   * it appends: from position `i`, every flagged asteroid consumes the next draw and
   * appends its replacement. The result is the list after the walk, or None when the
   * draws run out before the walk ends.
   */
  function Grow(list: seq<Sprite>, i: nat, draws: seq<SpawnDraw>, next: nat, arena: Arena): Option<seq<Sprite>>
    requires i <= |list|
    requires ValidSpawns(draws, arena)
    decreases |draws| + |list| - i
  {
    if i == |list| then Some(list)
    else if SpriteBeyond(list[i], arena.width, arena.height) then
      if draws == [] then None
      else Grow(list + [Respawn(draws[0], next, arena)], i + 1, draws[1..], next + 1, arena)
    else Grow(list, i + 1, draws, next, arena)
  }

  /** `to_be_removed_astroids` as identities: the flagged sprites, in walk order. */
  function BeyondIds(s: seq<Sprite>, width: int, height: int): (r: seq<nat>)
    ensures forall k :: 0 <= k < |s| && SpriteBeyond(s[k], width, height) ==> s[k].id in r
    ensures forall id :: id in r ==> exists k :: 0 <= k < |s| && s[k].id == id && SpriteBeyond(s[k], width, height)
  {
    if s == [] then []
    else
      var rest := BeyondIds(s[1..], width, height);
      assert forall k :: 1 <= k < |s| ==> s[k] == s[1..][k - 1];
      (if SpriteBeyond(s[0], width, height) then [s[0].id] else []) + rest
  }

  /** The asteroids that stay: those not flagged, in order. */
  function OnScreen(s: seq<Sprite>, width: int, height: int): (r: seq<Sprite>)
    ensures |r| <= |s|
    ensures forall k :: 0 <= k < |r| ==> r[k] in s && !SpriteBeyond(r[k], width, height)
  {
    if s == [] then []
    else (if SpriteBeyond(s[0], width, height) then [] else [s[0]]) + OnScreen(s[1..], width, height)
  }

  /** `remove_from_sprite_lists` for every sprite whose identity is listed. */
  function Keep(s: seq<Sprite>, ids: seq<nat>): (r: seq<Sprite>)
    ensures forall k :: 0 <= k < |r| ==> r[k] in s && r[k].id !in ids
  {
    if s == [] then []
    else (if s[0].id in ids then [] else [s[0]]) + Keep(s[1..], ids)
  }

  ghost predicate DistinctIds(s: seq<Sprite>) {
    forall i, j :: 0 <= i < j < |s| ==> s[i].id != s[j].id
  }

  ghost predicate IdsBelow(s: seq<Sprite>, bound: nat) {
    forall k :: 0 <= k < |s| ==> s[k].id < bound
  }

  lemma {:induction false} BeyondIdsAppend(s: seq<Sprite>, x: Sprite, width: int, height: int)
    ensures BeyondIds(s + [x], width, height)
         == BeyondIds(s, width, height) + (if SpriteBeyond(x, width, height) then [x.id] else [])
  {
    if s != [] {
      assert (s + [x])[1..] == s[1..] + [x];
      BeyondIdsAppend(s[1..], x, width, height);
    }
  }

  /** Removing one more identity from a kept list is keeping with that identity added. */
  lemma {:induction false} KeepAgain(s: seq<Sprite>, ids: seq<nat>, id: nat)
    ensures Keep(Keep(s, ids), [id]) == Keep(s, ids + [id])
  {
    if s != [] {
      KeepAgain(s[1..], ids, id);
      assert s[0].id in ids + [id] <==> s[0].id in ids || s[0].id == id;
      var kept := Keep(s, ids);
      if s[0].id !in ids {
        assert kept == [s[0]] + Keep(s[1..], ids);
        assert kept[0] == s[0] && kept[1..] == Keep(s[1..], ids);
        assert Keep(kept, [id]) == (if s[0].id == id then [] else [s[0]]) + Keep(Keep(s[1..], ids), [id]);
        assert Keep(s, ids + [id]) == (if s[0].id == id then [] else [s[0]]) + Keep(s[1..], ids + [id]);
      } else {
        assert kept == Keep(s[1..], ids);
        assert Keep(s, ids + [id]) == Keep(s[1..], ids + [id]);
      }
    }
  }

  /** Every sprite is either kept or flagged. */
  lemma {:induction false} OnScreenCount(s: seq<Sprite>, width: int, height: int)
    ensures |OnScreen(s, width, height)| + |BeyondIds(s, width, height)| == |s|
  {
    if s != [] {
      OnScreenCount(s[1..], width, height);
    }
  }

  /** When the identities listed are exactly those of the flagged sprites, keeping is OnScreen. */
  lemma {:induction false} KeepIsOnScreen(s: seq<Sprite>, ids: seq<nat>, width: int, height: int)
    requires forall k :: 0 <= k < |s| ==> (s[k].id in ids <==> SpriteBeyond(s[k], width, height))
    ensures Keep(s, ids) == OnScreen(s, width, height)
  {
    if s != [] {
      assert forall k :: 1 <= k < |s| ==> s[1..][k - 1] == s[k];
      KeepIsOnScreen(s[1..], ids, width, height);
    }
  }

  /** With distinct identities, removing the flagged identities keeps exactly the on-screen sprites. */
  lemma RemovingFlaggedKeepsOnScreen(s: seq<Sprite>, width: int, height: int)
    requires DistinctIds(s)
    ensures Keep(s, BeyondIds(s, width, height)) == OnScreen(s, width, height)
  {
    var ids := BeyondIds(s, width, height);
    forall k | 0 <= k < |s|
      ensures s[k].id in ids <==> SpriteBeyond(s[k], width, height)
    {
      if s[k].id in ids {
        var k' :| 0 <= k' < |s| && s[k'].id == s[k].id && SpriteBeyond(s[k'], width, height);
        assert k' == k;
      }
    }
    KeepIsOnScreen(s, ids, width, height);
  }

  /** The sprites OnScreen keeps keep their distinct identities. */
  lemma {:induction false} OnScreenDistinct(s: seq<Sprite>, width: int, height: int)
    requires DistinctIds(s)
    ensures DistinctIds(OnScreen(s, width, height))
  {
    if s != [] {
      assert forall k :: 1 <= k < |s| ==> s[1..][k - 1] == s[k];
      OnScreenDistinct(s[1..], width, height);
      var rest := OnScreen(s[1..], width, height);
      assert forall k :: 0 <= k < |rest| ==> rest[k].id != s[0].id;
    }
  }

  /**
   * The walk only appends: the list it started from is a prefix of the result, and the
   * k-th appended asteroid is the respawn of the k-th draw, with identity next + k.
   */
  lemma {:induction false} GrowAppendsRespawns(list: seq<Sprite>, i: nat, draws: seq<SpawnDraw>, next: nat, arena: Arena)
    requires i <= |list| && ValidSpawns(draws, arena)
    requires Grow(list, i, draws, next, arena).Some?
    ensures var g := Grow(list, i, draws, next, arena).value;
            && |list| <= |g| <= |list| + |draws|
            && g[..|list|] == list
            && forall k :: 0 <= k < |g| - |list| ==> g[|list| + k] == Respawn(draws[k], next + k, arena)
    decreases |draws| + |list| - i
  {
    if i < |list| {
      if SpriteBeyond(list[i], arena.width, arena.height) {
        var list' := list + [Respawn(draws[0], next, arena)];
        GrowAppendsRespawns(list', i + 1, draws[1..], next + 1, arena);
        var g := Grow(list, i, draws, next, arena).value;
        assert g[..|list'|][..|list|] == g[..|list|];
        forall k | 1 <= k < |g| - |list|
          ensures g[|list| + k] == Respawn(draws[k], next + k, arena)
        {
          assert g[|list'| + (k - 1)] == Respawn(draws[1..][k - 1], next + 1 + (k - 1), arena);
        }
      } else {
        GrowAppendsRespawns(list, i + 1, draws, next, arena);
      }
    }
  }

  /** Each asteroid the walk appends matches exactly one flagged asteroid. */
  lemma {:induction false} GrowCount(list: seq<Sprite>, i: nat, draws: seq<SpawnDraw>, next: nat, arena: Arena)
    requires i <= |list| && ValidSpawns(draws, arena)
    requires Grow(list, i, draws, next, arena).Some?
    ensures var g := Grow(list, i, draws, next, arena).value;
            |g| >= |list| &&
            |BeyondIds(g, arena.width, arena.height)|
              == |BeyondIds(list[..i], arena.width, arena.height)| + (|g| - |list|)
    decreases |draws| + |list| - i
  {
    var w, h := arena.width, arena.height;
    if i == |list| {
      assert list[..i] == list;
    } else if SpriteBeyond(list[i], w, h) {
      var list' := list + [Respawn(draws[0], next, arena)];
      GrowCount(list', i + 1, draws[1..], next + 1, arena);
      assert list'[..i + 1] == list[..i] + [list[i]];
      BeyondIdsAppend(list[..i], list[i], w, h);
    } else {
      GrowCount(list, i + 1, draws, next, arena);
      assert list[..i + 1] == list[..i] + [list[i]];
      BeyondIdsAppend(list[..i], list[i], w, h);
    }
  }

  /**
   * The maintenance pass keeps the population: after the walk and the removal of the
   * flagged asteroids, exactly as many asteroids remain as there were, and none of them
   * is beyond the screen.
   */
  lemma GrowKeepsPopulation(list: seq<Sprite>, draws: seq<SpawnDraw>, next: nat, arena: Arena)
    requires ValidSpawns(draws, arena)
    requires Grow(list, 0, draws, next, arena).Some?
    ensures var kept := OnScreen(Grow(list, 0, draws, next, arena).value, arena.width, arena.height);
            |kept| == |list| && forall k :: 0 <= k < |kept| ==> !SpriteBeyond(kept[k], arena.width, arena.height)
  {
    var g := Grow(list, 0, draws, next, arena).value;
    GrowCount(list, 0, draws, next, arena);
    assert list[..0] == [];
    OnScreenCount(g, arena.width, arena.height);
  }
}
