# RescueAI core in Dafny

RescueAI is a reinforcement-learning environment. A rescuer spaceship must pick up an
alien ("Alfred") and deliver it to a mothership, while asteroids drift in from the
screen borders. This project models the three files that make up the environment's
core, and proves properties of the model.

- `auxilary.py` becomes the module `Auxilary`, in `auxilary.dfy`. The rescuer, the
  carried resource and the queued move are classes whose fields the game updates in
  place.
- `game.py` becomes two modules:
  - `GameRules`, in `game_rules.dfy`. Plain sprites are values, and the random helpers
    take their draws as parameters. The asteroid-maintenance walk of `custom_update` is
    stated as the function `Grow`, with the removal pass as `OnScreen`/`Keep`.
  - `Game`, in `game.dfy`. The `Game` class has the sprite lists, the counters, the two
    collision handlers, `reset` and `custom_update`. Each method is proved against the
    rules.
- `env.py` becomes two modules:
  - `EnvRules`, in `env_rules.dfy`. It holds the action table, the numerical
    observation, the hit-box distance, the sliding-window reward shaper as a function
    `Shape` of its remembered state, and `decision` as the function `Decide`.
  - `Env`, in `env.dfy`. The `Environment` class has `step`, `decision`,
    `reward_function`, `get_obs` and `reset`. Each method is proved against those
    functions.
- `common.dfy` holds shared values: points, option and result types, the error kinds
  and the extended reals.

The physics engine is abstract. The game records every impulse and constant force
handed to the engine, in the fields `impulses` and `drifts`. What one engine step
produces is an input, a `PhysicsStep`: the contacts reported to the post-solve
handlers, in callback order, and the new centres of the bodies. Every random draw is an
input, and its range is a precondition. Euclidean distance is a parameter `dist`. Where
a property needs it, `dist` is assumed non-negative and symmetric (`IsMetric`).

A tick is described from the state it starts in. `Start` gathers what the tick reads
or rewrites, and the rescuer's health, which it leaves alone: the carry state, the
rescuer's centre and health, the carried resource with its centre and stuck flag, the
alien and asteroid lists, and the identity and collision counters. `SteppedFrom` says
what the engine half of `custom_update` leaves behind (health unchanged among it),
`CarriedAfter` where the carried resource ends, and `TickedFrom` the whole tick.
`ResetBy` says what `reset` leaves behind.

Python exceptions become error results:
- an unknown action raises `KeyError` in `step`;
- indexing an empty sprite list raises `IndexError` in `get_obs`;
- the `AttributeError` of `Resource.update` is the `raised` output of
  `UpdateAsWritten`.

Two behaviours of the reward shaper are easy to misread in the code:
- The comment at env.py:135 says the avoidance window is cleared when no asteroid is
  in range. The code does clear it at env.py:136, but then pushes progress 0 at
  env.py:150-153, so the window is `[0]` after every such call
  (`ShapeWithoutNearAsteroid`).
- On the second call after reset the movement window holds two entries: the first
  call already pushed 0, so the window is `[0, progress]`. The term still equals the
  progress, because the sum is divided by the length taken before the push
  (env.py:109-119). `TwoCallMovementExample` works this out for goal distances 1 and
  then 0.8: the window is `[0, 0.2]` and the term 0.2, not the mean 0.1.

A rescue is noticed only as a true-to-false change of `carries_resource` across one
tick (env.py:200-201). A pick-up followed by a delivery within a single engine step
raises `delivery` but leaves the flag false before and after
(`PickUpAndDeliveryInOneStep`). The episode therefore goes on. The alien is gone, so
`get_obs` indexes an empty alien list and `step` raises IndexError:
`SameTickRescueRaises` proves that `Step` returns `Err(IndexError)` for such a tick.
Reading the delivery counter would have noticed it (`DeliveryNoticesEveryRescue`).

## Model

| member | source | states |
|---|---|---|
| Auxilary.Rescuer.constructor | auxilary.py:3-8 | A new rescuer has the given centre, hit-box extremes and health, and does not carry a resource. |
| Auxilary.Resource.constructor | auxilary.py:11-14 | A new resource is not stuck and has zero velocity. The `stuck` attribute that `update` reads is absent. |
| Auxilary.Resource.UpdateAsWritten | auxilary.py:16-19 | `update` as written raises exactly when `stuck` is absent. The centre advances by the velocity only when the flag read is false; otherwise nothing moves. |
| Auxilary.Resource.Update | auxilary.py:16-19 | The intended `update`: the centre advances by the velocity exactly when the resource is not stuck. Velocity and flags are unchanged. |
| Auxilary.FreshResourceUpdateRaises | auxilary.py:11-19 | For every position and velocity, `update` on a freshly built, not-stuck resource raises and does not move it. |
| Auxilary.FreshResourceUpdateMoves | auxilary.py:11-19 | The corrected `update` moves a fresh resource by exactly its velocity. |
| Auxilary.Move.constructor | auxilary.py:22-31 | A move keeps its action type, target sprite and force. |
| GameRules.BeyondScreen | game.py:400-407 | `_has_moved_beyond_screen` on hit-box edges: true as soon as the left edge is below 0, the right edge above the width, the bottom below 0 or the top above the height, so a sprite still partly on screen already counts. |
| GameRules.SpriteBeyond | game.py:400-407 | The same test applied to a sprite's own left, right, bottom and top edges, computed from its centre and hit-box extremes. |
| GameRules.StraddlingSpriteIsBeyond | game.py:400-407 | A sprite whose centre is on screen but whose left edge is past the border is already "beyond the screen". |
| GameRules.CoordDraw | game.py:358-361 | `_get_random_coord(lb)` can return exactly the integers from `lb` to `height - lb`, both ends included; the same bound serves x and y. |
| GameRules.AsteroidCoord | game.py:363-378 | A border spawn point lies on one of the four lines at distance `margin` from a border. It is inside the screen whenever both sides are at least 50. |
| GameRules.RandomForce | game.py:380-392 | Each force component has magnitude 50 to 100. It is positive exactly on the side of the screen centre below half the width (or height). |
| GameRules.RandomForcePointsInward | game.py:380-392 | Each force component is positive if and only if the asteroid lies on the lower half of that axis, so the force points towards the centre. |
| GameRules.Respawn | game.py:317-323 | A respawned asteroid carries the fresh identity it is given. |
| GameRules.RespawnCanBeBeyond | game.py:311-336 | An asteroid respawned on the left line whose hit box reaches further left than its margin is itself flagged as beyond the screen. |
| GameRules.BeyondIds | game.py:310-314 | The list of asteroids to remove contains the identity of every flagged sprite, and only identities of flagged sprites. |
| GameRules.OnScreen | game.py:338-339 | What stays after the removal pass is drawn from the list and has no flagged sprite. It is no longer than the list. |
| GameRules.Keep | game.py:338-339 | Removing listed identities leaves only sprites of the list whose identity is not listed. |
| GameRules.BeyondIdsAppend | game.py:311-314 | Walking one more asteroid appends its identity to the removal list exactly when it is flagged. |
| GameRules.KeepAgain | game.py:338-339 | Removing the noted asteroids one at a time equals removing them all at once. |
| GameRules.OnScreenCount | game.py:310-339 | Every asteroid is either kept or noted for removal: the two counts add up to the list length. |
| GameRules.KeepIsOnScreen | game.py:338-339 | Removing a set of identities that marks exactly the flagged sprites leaves exactly the on-screen sprites. |
| GameRules.RemovingFlaggedKeepsOnScreen | game.py:310-339 | With distinct identities, removing the identities noted by the walk leaves exactly the on-screen sprites, in order. |
| GameRules.OnScreenDistinct | game.py:338-339 | The removal pass keeps identities distinct. |
| GameRules.ChosenRound | game.py:409-419 | The index of the first placement round whose points are more than 200 apart, or of the last round when none is. Every earlier round is too close. |
| GameRules.Grow | game.py:311-336 | The first loop of `custom_update` as a walk over a list that grows while it is walked: each flagged asteroid, appended ones included, takes the next spawn draw and appends a respawn with the next identity; unflagged ones are passed over. There is no result when the draws run out before the walk ends. |
| GameRules.GrowAppendsRespawns | game.py:311-336 | The walk only appends. The old list is a prefix, at most one asteroid is added per draw, and the k-th appended asteroid is the respawn of the k-th draw with identity `next + k`. |
| GameRules.GrowCount | game.py:311-336 | The walk appends exactly one asteroid per flagged asteroid it visits, counting those it appended itself. |
| GameRules.GrowKeepsPopulation | game.py:310-339 | After the walk and the removal pass, exactly as many asteroids remain as before, and none of them is beyond the screen. |
| Game.MoveTo | game.py:306 | After the engine step every sprite keeps its identity and hit-box extremes and takes its body's new centre. |
| Game.Relocated | game.py:306 | The alien list, of zero or one sprite, keeps its identities and hit boxes and every sprite in it takes the alien body's new centre. |
| Game.Handle | game.py:197-254 | One handler call: contact with the alien while free picks up (flag set, pick-up count +1); contact with the mothership while carrying delivers (flag cleared, delivery count +1); any other contact leaves the carry state alone. |
| Game.HandleAll | game.py:197-254 | The handler calls of one engine step, applied one by one in the order the contacts are reported. |
| Game.HandleAllKeepsBalance | game.py:197-254 | Over any sequence of handler calls, pick-ups minus deliveries minus the carried resource is unchanged, and neither counter decreases. |
| Game.HandleAllCountsContacts | game.py:197-254 | Each contact raises the pick-up and delivery counters by at most one in total. |
| Game.DropMeansDelivery | game.py:235-254 | If the carry flag goes from true to false within one step, the delivery counter rose. |
| Game.PickUpAndDeliveryInOneStep | game.py:197-254 | Starting free, a pick-up followed by a delivery leaves the flag false and raises both counters by one, so no true-to-false change is visible. |
| Game.DeliveryNoticesEveryRescue | env.py:200-201 | A rise of the delivery counter notices every rescue that the true-to-false carry edge notices. It also notices a pick-up and delivery in one tick, which the edge misses. |
| Game.Without | game.py:250-252 | `remove_from_sprite_lists` keeps every other resource and drops every occurrence of the removed one, making the list shorter when the resource was in it. |
| Game.Game.constructor | game.py:19-58 | `__init__` with `setup`: every sprite list and the action queue are empty, and the pick-up, delivery and collision counters are 0. |
| Game.Game.InitialAsteroid | game.py:99-108 | An asteroid created by reset carries the identity it is given. |
| Game.Game.NoOverlappingCoords | game.py:409-419 | The loop uses exactly `ChosenRound` + 1 rounds and returns that round's points: the first pair more than 200 apart, or the 100th pair when none is. |
| Game.Game.Reset | game.py:60-188 | After reset the game is valid and as `ResetBy` says. There is one free rescuer (fresh, health 5) at the drawn point, with the rescuer texture's hit box at scale 0.5. The mothership and alien are at the two points of `ChosenRound` (the first far-apart round, else the 100th), with hit boxes at scales 0.25 and 0.2. The eight drawn asteroids have fresh identities, there is no resource, and the new engine has no impulses and one drift force per asteroid. |
| Game.Game.PlaceMotherShipAndAlien | game.py:79-97 | One mothership at the first point and one alien at the second point of `ChosenRound` (the first round more than 200 apart, else the 100th), with hit boxes at scales 0.25 and 0.2 of their textures. The alien's identity is the one recorded as Alfred. |
| Game.Game.PlaceAsteroids | game.py:99-110 | One asteroid per draw, in draw order, with fresh, distinct identities. |
| Game.Game.StartEngine | game.py:143-188 | A new engine has no impulse yet, and each asteroid has its drift force drawn by the random-force rule, in list order. |
| Game.Game.RescuerAlienCollision | game.py:197-233 | A free rescuer picks up: the pick-up count rises, a fresh stuck resource appears at (x-10, y-10) of the rescuer and is the one carried, and the alien is removed. A carrying rescuer changes nothing. Validity is kept. |
| Game.Game.RescuerMotherShipCollision | game.py:235-254 | A carrying rescuer delivers: the delivery count rises, the carried reference is cleared, and exactly the carried resource leaves the list. A free rescuer changes nothing. |
| Game.Game.Dispatch | game.py:197-269 | The handlers run for the reported contacts in order. The carry state and counters end as `HandleAll` prescribes, and the rescuer does not move. The alien list is emptied exactly when a pick-up happened and is otherwise unchanged. A resource carried after a pick-up is fresh, stuck and at (x-10, y-10) of the rescuer; one carried throughout is the same resource, with the same flag and position (`CarriedAfter`). Validity is kept. |
| Game.Game.ApplyActions | game.py:290-304 | Every queued move's force goes to its sprite in queue order, and the queue is emptied. A carried resource ends at (x, y-20) of the rescuer when some move pushed it; otherwise no resource is touched. |
| Game.Game.ApplyMove | game.py:292-301 | One move adds its impulse. If it targets a carrying rescuer, the resource is re-anchored at (x, y-20); otherwise resources are untouched. |
| Game.Game.Resync | game.py:306 | The rescuer, the alien (`Relocated`) and every asteroid (`MoveTo`) take their bodies' new centres. Carry state, identities and hit boxes are kept. |
| Game.Game.MaintainAsteroids | game.py:309-339 | After maintenance the asteroid list is the on-screen part of the grown list. It holds the same number of asteroids, none beyond the screen, with one impulse recorded per respawn. |
| Game.Game.WalkAsteroids | game.py:310-336 | The walk, which also visits what it appends, produces exactly the grown list of `Grow`. It notes exactly the flagged identities, hands out one fresh identity and one impulse per respawn, and keeps identities distinct. |
| Game.Game.WalkStep | game.py:311-336 | One asteroid of the walk keeps the walk invariant, consuming a draw exactly when it appends a respawn. |
| Game.Game.SpawnReplacement | game.py:317-336 | A respawn is appended with the next fresh identity and its impulse is logged, keeping identities distinct. |
| Game.Game.RemoveAsteroids | game.py:338-339 | The second loop removes exactly the noted identities. |
| Game.Game.RescuerBeyond | game.py:346-347 | `rescuer_in_environment`: the rescuer's hit box, at its current centre, crosses a screen border. |
| Game.Game.HitsAsteroid | game.py:341-344 | `collided_with_astroid`: some asteroid still in the list after maintenance is among those whose hit boxes the engine reports as meeting the rescuer's. |
| Game.Game.EngineStep | game.py:290-306 | The engine half of a tick, as `SteppedFrom` says. Moves are applied and the queue emptied, the handlers fire for the contacts, and sprites take their new centres; the rescuer's health is left alone. The alien list is empty after a pick-up, and otherwise the alien is at its body's new centre. A resource carried throughout ends at (x, y-20) of the rescuer's old centre when a move pushed the rescuer, and where it was otherwise; one picked up is fresh and stuck at (x-10, y-10). Validity is kept. |
| Game.Game.MaintainAndJudge | game.py:309-353 | The second half of a tick, after an engine step described by `SteppedFrom`: the asteroids are maintained, `collision` rises exactly on a hit, and a mistake is reported if and only if the rescuer hits an asteroid or crosses a screen edge. The whole tick is then as `TickedFrom` says. |
| Game.Game.CustomUpdate | game.py:289-353 | One tick, as `TickedFrom` says. It reports a mistake if and only if the rescuer hits an asteroid or crosses a screen edge, and `collision` counts only the hits. Carry state follows the contacts, and the carried resource is placed as in `EngineStep`. The rescuer takes its new centre, and the alien is dropped after a pick-up and moved otherwise. The asteroid population is kept on screen, the impulses are the moves' then the respawns', and the mothership and drift forces are untouched. |
| EnvRules.ActionMapping | env.py:38-43 | Exactly actions 0 to 3 are mapped, each to an axis-aligned force of magnitude 250. Any other key is missing. |
| EnvRules.ActionMappingInjective | env.py:38-43 | Distinct known actions push in distinct directions. |
| EnvRules.MappedPrefix | env.py:189-193 | The number of actions queued before the first unknown key, which is the action where `KeyError` is raised. |
| EnvRules.Normalized | env.py:266-268 | Every observation coordinate times the screen width gives back the centre coordinate. |
| EnvRules.NormalizedYCanLeaveUnitBox | env.py:266-268 | Dividing y by the width puts the top of a screen taller than wide above 1, outside the declared [0, 1] box. |
| EnvRules.MinWith | env.py:296-297 | The running minimum becomes finite and is at most both the old minimum and the new distance. |
| EnvRules.RowMin | env.py:294-297 | The inner loop's value is infinite exactly for an empty hit box; otherwise it is attained, and it is at most every distance. |
| EnvRules.MinPair | env.py:284-299 | The hit-box distance is infinite exactly when a hit box is empty; otherwise it is attained by some pair, and it is at most every pair's distance. |
| EnvRules.MinPairSymmetric | env.py:284-299 | For a symmetric distance, the hit-box distance does not depend on the order of the two sprites. |
| EnvRules.Minimum | env.py:140 | `min` of a non-empty list is one of its elements and at most every element. |
| EnvRules.Divisor | env.py:109-110 | The averaging divisor is at least 1, and equals the window length whenever the window is non-empty. |
| EnvRules.Push | env.py:112-115 | A push appends the progress, after dropping the oldest entry when the window held 10, so a bounded window stays at most 10. |
| EnvRules.PushSum | env.py:112-118 | The sum after a push is the old sum, minus the evicted entry, plus the progress. |
| EnvRules.Smooth | env.py:109-119 | One smoothed signal: the window after the push, and half the progress plus half of the pushed window's sum divided by the window length before the push (1 for an empty window). |
| EnvRules.SmoothIncremental | env.py:109-119 | The smoothed term from the old window alone: half the progress plus half of (old sum, minus evicted entry, plus progress) over the pre-push divisor. |
| EnvRules.SmoothFullWindowIsMean | env.py:109-119 | With a full window the average part is the true mean of the ten entries after the push. |
| EnvRules.SmoothPartialWindowOvercounts | env.py:109-119 | With a partly filled window the sum after the push has one entry more than the divisor counts. |
| EnvRules.SmoothFromEmpty | env.py:109-119 | On an empty window the term is the progress itself, and the window becomes `[progress]`. |
| EnvRules.Shape | env.py:100-161 | Bounded windows stay bounded, the goal distance is remembered, and the reward is 1000 times the movement term plus the avoidance term. |
| EnvRules.ShapeFromSignals | env.py:100-161 | The shaper's result is assembled from the movement signal and the avoidance signal. Without an asteroid in range, the avoidance signal uses a cleared window and keeps the remembered distance. |
| EnvRules.ShapeWithoutNearAsteroid | env.py:134-158 | Without an asteroid in range, the avoidance window becomes `[0]` and its term is 0. The remembered avoidance distance is kept, not cleared, and the reward is movement only. |
| EnvRules.ShapeWithNearAsteroid | env.py:138-153 | With asteroids in range, the nearest distance is remembered and its increase over the remembered one is pushed. |
| EnvRules.FirstCallAfterReset | env.py:103-153 | The first call after reset scores 0, and both windows become `[0]`. |
| EnvRules.TwoCallMovementExample | env.py:100-119 | For goal distance 1 then 0.8 after reset, the movement window is `[0, 0.2]` and the term is 0.2, not the mean 0.1. |
| EnvRules.SecondPushOnto | env.py:109-119 | Pushing 0.2 onto `[0]` gives window `[0, 0.2]` and term 0.2. |
| EnvRules.NearDistances | env.py:125-132 | At most one distance is collected per asteroid, and each is below 130. |
| EnvRules.NearDistancesExact | env.py:125-132 | The collected distances are exactly the finite hit-box distances below 130: each in-range asteroid's distance is in the list, and each entry comes from some asteroid. |
| EnvRules.Decide | env.py:208-230 | A mistake ends the episode with -10 and a rescue with 10, both without an observation and leaving the shaper unchanged. Otherwise the observation is returned and scored by the shaper. The error of `get_obs` surfaces exactly when neither mistake nor rescue happened. |
| Env.AsStep | env.py:203-206 | `step` returns `decision`'s observation, reward and done unchanged, never reports truncation, and has an empty info map. An error passes through. |
| Env.Environment.constructor | env.py:13-49 | A fresh, set-up game: the rescuer, mothership, alien, resource and asteroid lists and the action queue are all empty, and the counters are 0. The reward state is cleared. |
| Env.Environment.GetObs | env.py:232-270 | `IndexError` exactly when there is no rescuer or no goal (the mothership while carrying, the alien otherwise). Otherwise the goal and rescuer centres, each divided by the screen width. |
| Env.Environment.DistanceBetweenSprites | env.py:284-299 | The nested loops compute the hit-box distance `MinPair`: attained, least over all pairs, and infinite for an empty hit box. |
| Env.Environment.NearAsteroidDistances | env.py:125-132 | The asteroid loop collects exactly `NearDistances`. |
| Env.Environment.AvoidanceSignal | env.py:134-158 | Without a distance in range, the window restarts from empty with progress 0 and the remembered distance is kept. Otherwise the minimum is remembered and its increase is smoothed. |
| Env.Environment.ShapeSignals | env.py:100-161 | The reward function's arithmetic yields exactly the next state and the reward of `Shape`. |
| Env.Environment.RewardFunction | env.py:69-161 | The remembered distances and both windows advance exactly as `Shape` prescribes on the observation's goal distance and the in-range distances. The reward is `Shape`'s, and the windows stay within 10. |
| Env.Environment.Decision | env.py:208-230 | Result and new reward state are exactly those of `Decide` on the current observation. The environment's invariant is kept. |
| Env.Environment.QueueActions | env.py:189-193 | One move per action, pushing the game's rescuer with the mapped force, up to the first unknown action. Returns how many were queued. A rescuer move is queued exactly when one was before or at least one action was mapped. Nothing that a tick reads (`Start`) changes. |
| Env.Environment.Advance | env.py:182-201 | On an unknown action the earlier moves stay queued, and the rest of the game (`Start`, impulses) and the reward state are unchanged. Otherwise one tick runs from the state before the call, as `TickedFrom` says: the queue is emptied, the contacts handled, the carried resource placed (pushed when any move targets the rescuer), the rescuer and alien moved, the asteroids maintained and the hits counted. The mistake is the tick's, `rescued_alfred` is set exactly on a true-to-false carry change, and the impulses are the earlier moves', the thrusts' and the respawns'. |
| Env.Environment.Tick | env.py:186-201 | The game advances as `TickedFrom` says, including the carried resource and the collision count. A resource picked up in the tick is fresh. The mistake is the tick's, and `rescued_alfred` becomes true exactly when the rescuer carried before the tick and does not after it. |
| Env.Environment.Step | env.py:163-206 | On the first unknown action: `KeyError` with that key, the earlier moves left queued, and neither the rest of the game (`Start`, impulses), the rescue flag nor the reward state changed. Otherwise the game is as `TickedFrom` describes: queue emptied, contacts handled, carried resource placed, rescuer and alien moved, asteroids maintained and hits counted. A rescue is noted exactly on a delivery edge, and the result and reward state are `Decide`'s, as returned by `step`. The impulses are the earlier moves', then the thrusts of the queued actions, then one per respawn appended by the walk, which adds at most one asteroid per spawn draw. The invariant is kept. |
| Env.Environment.Conclude | env.py:203-206 | The end of `step`: the result is `Decide`'s outcome for the tick's mistake, returned as `step`'s tuple, and the reward state is `Decide`'s. The game is left as the tick made it. |
| Env.Environment.Reset | env.py:51-64 | The game is reset as `ResetBy` says, with a fresh rescuer and the counters kept, and the reward state is cleared. The observation returned is that of `get_obs`: the alien at the second point of `ChosenRound` as the goal, and the drawn rescuer centre, both divided by the screen width. A reset with no stale moves yields a valid environment. |
| Env.SameTickRescueRaises | env.py:183-206 | Starting free with the alien present, a tick whose contacts are a pick-up then a delivery, with no asteroid hit and the rescuer on screen, makes `step` return `Err(IndexError)`. |

## Left out

- Rendering, `custom_draw`, `get_image` and the image half of the observation, window events, `flip` and `_save_video` are left out: they are display and I/O.
- The gym observation and action spaces are not modelled. `NormalizedYCanLeaveUnitBox` records how the numerical observation can leave its declared box.
- The physics engine is an input: the pymunk bodies, damping, velocity limits, the walls and the wall/asteroid collision filter, and how a step integrates forces. A tick's contacts and new centres are given, and the impulses and forces are recorded, not simulated.
- Hit boxes (`get_adjusted_hit_box`) and `check_for_collision_with_list` come from arcade. The hit boxes are point lists given to `RewardFunction`/`Step`, and the collided asteroids are a set of identities given to `CustomUpdate`.
- Random draws are inputs with their ranges as preconditions. The asteroid texture choice is left out, since both textures are the same file. The hit-box extremes of each texture at scale 1 are inputs (`Textures`), scaled as each sprite's scale prescribes.
- Python floats are modelled as reals, without rounding. Euclidean distance is a parameter, not `math.sqrt`.
- `_initial_rescuer_alien_dist` is left out: it is never called.
- `close()` and the print statements in the handlers are left out: they have no effect on the modelled state.
- `ppo_model.py` and `rescue_ai.py` (the training script and model) are not part of this model.
- `Action` is folded into `Move`: the only action built is a move.
- Plain sprites (mothership, alien, asteroids) are values with an identity number, not objects. Adding a respawned asteroid to the engine is recorded only through its impulse.
- Env.Environment.Step: requires a reset game (`Valid`). Calling `step` before `reset` fails with IndexError in the source; this is not modelled, and neither is `rescued_alfred` being undefined before the first step (the model starts it at false).
- Env.Environment.Reset: ensures validity only when no move is left queued. A move queued before an earlier `KeyError` still targets the old rescuer, which the model does not follow.
- Env.Environment.GetObs: requires a positive screen width. The source would divide by zero otherwise, and so do `Decision` and the constructor.
- Game.Game.CustomUpdate: requires that the spawn draws supplied cover every respawn of the walk. In the source the walk draws as many times as it needs.
- Sprite hit boxes keep the extremes of their texture. The rotation that pymunk gives an asteroid's body, which changes arcade's `left`/`right`/`bottom`/`top`, is not modelled.
- The hit-box point lists given to `RewardFunction` and `Step` are tied to the game only by their count (one per asteroid), not by their geometry.
- Game.Game.CustomUpdate, Env.Environment.Tick, Env.Environment.Advance and Env.Environment.Step: require that the physics step is `Feasible`. It must give one new centre per asteroid and report no more pick-ups than there are aliens to touch, as an engine whose removed bodies no longer collide would.
- GameRules.Respawn and Game.Game.InitialAsteroid: their contracts state only the identity. The position and extents are stated through `AsteroidCoord` and by the callers' contracts.

## Findings

| source | as written | input that shows it | evidently intended | confidence | as-written member | corrected member |
|---|---|---|---|---|---|---|
| auxilary.py:16-19 | `update` tests `self.stuck`, but the constructor and the pick-up handler only ever set `is_stuck`, so the attribute read does not exist | any freshly built `Resource` on which `update()` is called (nothing in the game calls it yet, so the fault is latent) | move by the velocity unless `is_stuck` | high (not executed) | Auxilary.FreshResourceUpdateRaises | Auxilary.FreshResourceUpdateMoves |
| env.py:200-201 | a rescue is noticed only as a true-to-false change of `carries_resource` across one tick | a tick starting free whose contacts are rescuer/alien then rescuer/mothership, with no asteroid hit and the rescuer on screen: the flag is false before and after, the alien is gone, and `get_obs` raises IndexError | end the episode with reward 10 whenever a delivery happened in the tick | medium (not executed) | Env.SameTickRescueRaises | Game.DeliveryNoticesEveryRescue |
