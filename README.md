# PetMazeMadness core, modelled in Dafny

PetMazeMadness is a tilt-controlled maze game. The player tilts the phone to roll a pet (the ball) through a grid maze to the goal cell. Walls block the ball. Danger cells and enemies cost a banked extra life, or end the attempt when none is left. Snacks bank lives, and a completed level earns up to five stars.

This project models the game's simulation and bookkeeping core and proves properties of it. One Dafny module corresponds to each part of the game:

- `Common` (common.dfy): points in the maze's pixel space, grid cells, cell centres and squared distances.
- `GameHelpers` (game_helpers.dfy): the level start position, the bounds-checked cell lookup, and the square-expanding search for the nearest path cell.
- `Physics` (physics.dfy): the per-frame ball step in NORMAL mode (momentum, friction, a ±20 clamp, axes resolved separately) and in CHAOS mode (direct, with a full / X-only / Y-only fallback). The collision test is injected. The class `BallPhysics` holds the hook's position and velocity.
- `RespawnLogic` (respawn.dfy): the throttled, bounded, cell-change-only position history, and the reverse scan for a respawn cell that no enemy occupies.
- `EnemyMovement` (enemy_movement.dfy): back-and-forth patrol enemies. Progress and direction are kept per enemy id, and the class `PatrolEnemies` holds the hook's refs.
- `StalkerEnemies` (stalker.dfy): stalkers. A stalker is triggered when the player enters its trigger cell. It activates once the player is three cells away from that cell. It then replays the player's trail while fading in.
- `GameAtoms` (game_atoms.dfy): the one-shot win and death guards.
- `GameTimer` (game_timer.dfy): the attempt timer with start, pause, resume, stop, reset and the interval tick.
- `ScoreManager` (score_manager.dfy): level statistics, best times, progress lists and completion lists. The persistent store is a class with one map per key family.
- `Pets` (pets.dfy): the pet table and the lookup by id with its default.
- `GameRules` (game_rules.dfy): the screen's pure rules. They cover the maze size, what a candidate ball position runs into, snack keys, stars and their merge, level-navigation arithmetic and the start button's title.
- `Game` (game_screen.dfy): the game screen. It covers `checkCollision` and its side effects, `triggerRespawn`, `checkAndSaveStars`, `resetGame`, `navigateToLevel` and the four level-navigation handlers. It also covers the focus effect and the arguments the screen hands the timer, physics and enemy hooks on each render.

Square roots are not modelled as floating point. Every distance comparison is restated on squared distances. Where the game divides by a distance, the distance comes from an injected function that is required to behave like `Math.sqrt(a*a + b*b)`. Clock readings, sensor readings, the 16 circumference sample points and the enemies' current positions are parameters.

## Model

| member | source | states |
|---|---|---|
| Common.CentreInCell | utils/game-helpers.ts:3-12 | The centre of a cell, `i * cellSize + cellSize / 2` on each axis, floors back to that cell for any positive cell size. |
| GameHelpers.GetPosition | utils/game-helpers.ts:3-12 | The start position lies half a cell (maze size over ROWS, on both axes) past the start cell's corner on each axis. For a positive maze size it lies in the start cell. |
| GameHelpers.StartPositionInsideMaze | utils/game-helpers.ts:3-12 | For a start cell inside a square grid, the start position lies strictly inside the maze's pixel extent. |
| GameHelpers.GetMazeCell | utils/game-helpers.ts:14-20 | Returns a code exactly when the cell is within row 0's width and the row count and also within its own row. That code is `layout[y][x]`. On a rectangular grid it returns a code exactly when the bounds check holds. |
| GameHelpers.WithinBoundsIsIndexable | utils/game-helpers.ts:18-20 | `isPositionWithinMazeBounds` measures the width of row 0 only. On a rectangular grid it holds exactly when `layout[y][x]` exists. |
| GameHelpers.FindNearestSafeCell | utils/game-helpers.ts:22-37 | A found cell is an in-bounds path cell whose ring radius is below `maxRadius`. No path cell lies on a smaller ring. Among the path cells of its square it comes first in row-then-column order. `None` means no path cell lies within any scanned square. |
| Physics.Clamp | hooks/useGamePhysics.ts:83-84 | The result lies in [-bound, bound]. It equals the input inside the range and the nearer bound outside it. |
| Physics.NormalVelocity | hooks/useGamePhysics.ts:74-84 | The NORMAL velocity lies within ±20 on each axis. |
| Physics.FrictionDissipates | hooks/useGamePhysics.ts:77-81 | Without tilt, each velocity component shrinks to at most 0.9 of its magnitude and becomes zero only when it was zero. |
| Physics.InversionNegatesInput | hooks/useGamePhysics.ts:74-75 | Inverted controls give the same velocity as negating the accelerometer reading. |
| Physics.NormalStep | hooks/useGamePhysics.ts:68-106 | Each axis is decided by the collision test of that axis alone. A blocked axis keeps its coordinate and gets velocity 0. A free axis moves by the clamped velocity. Velocity and displacement stay within ±20. |
| Physics.NormalStepSlides | hooks/useGamePhysics.ts:92-102 | When the diagonal move is blocked but the X-only move is free, the step still moves along X. |
| Physics.ChaosVelocity | hooks/useGamePhysics.ts:113-120 | The velocity is computed fresh from the swapped gyro axes: x from gyroY and y from gyroX, each times 0.6 and 0.8, after the optional inversion. |
| Physics.ChaosStep | hooks/useGamePhysics.ts:122-129 | The result is the first of {full, X-only, Y-only} that does not collide. When all three collide, it is the previous position. |
| Physics.BallPhysics.constructor | hooks/useGamePhysics.ts:40-41 | The hook starts at the initial position with zero velocity. |
| Physics.BallPhysics.ResetPosition | hooks/useGamePhysics.ts:52-55 | The position returns to the initial position and the velocity to zero. |
| Physics.BallPhysics.SetBallPosition | hooks/useGamePhysics.ts:41-42 | Only the position changes. |
| Physics.BallPhysics.SetVelocity | hooks/useGamePhysics.ts:41-42 | Only the velocity changes. |
| Physics.BallPhysics.UpdateBallPosition | hooks/useGamePhysics.ts:57-134 | The frame reschedules itself exactly when the game is neither won nor frozen, and a won or frozen frame changes nothing. NORMAL mode sets position and velocity to `NormalStep`. CHAOS mode sets the position to `ChaosStep` and leaves the stored velocity alone. |
| RespawnLogic.KeepLast | hooks/useRespawnLogic.ts:41-44 | `slice(-n)` keeps the last `min(n, length)` elements in order. |
| RespawnLogic.IsCellOccupiedByEnemy | hooks/useRespawnLogic.ts:48-67 | True exactly when some enemy is closer to the cell centre than half a cell plus the ball size. |
| RespawnLogic.RespawnHistory.constructor | hooks/useRespawnLogic.ts:17-20 | The history starts empty, with no last cell and a throttle clock of 0. |
| RespawnLogic.RespawnHistory.RecordPosition | hooks/useRespawnLogic.ts:22-46 | Calls within 50 ms of the last update, and calls in the last recorded cell, change nothing. Otherwise the entry is appended and only the last 4 entries are kept. The last cell and the throttle clock then advance. The history stays at most 4 entries with no two consecutive entries in the same cell. |
| RespawnLogic.RespawnHistory.FindSafeRespawnPosition | hooks/useRespawnLogic.ts:69-88 | A result is the centre of a candidate entry that no enemy occupies. Candidates exclude the newest entry, and every newer candidate is occupied. `None` is returned exactly when every candidate is occupied, including the case of at most one entry. |
| RespawnLogic.RespawnHistory.ClearHistory | hooks/useRespawnLogic.ts:90-94 | Empty history, no last cell, throttle clock 0. |
| EnemyMovement.FindById | hooks/useEnemyMovement.ts:55 | `find`: the first enemy with the id, or none exactly when no enemy has it. |
| EnemyMovement.Moved | hooks/useEnemyMovement.ts:77-82 | Progress changes by `direction * moveDistance / segmentDistance` only when the segment has positive length. |
| EnemyMovement.PatrolStep | hooks/useEnemyMovement.ts:59-103 | The segment is chosen from the pre-step progress and is always valid. The new progress lies in [0, segments]. An advance that reaches the far end or beyond clamps to the far end with direction -1. One that reaches 0 or below clamps to 0 with direction +1. In between, progress is the advanced value and the direction is kept. The position is interpolated along the pre-step segment with `t = p' - segmentStart`. |
| EnemyMovement.PatrolOnSegment | hooks/useEnemyMovement.ts:99-103 | While `t` is in [0, 1], the enemy lies on the line between the centres of its segment's two waypoints. |
| EnemyMovement.RepeatedWaypointStalls | hooks/useEnemyMovement.ts:73-82 | On a segment between two equal waypoints an enemy strictly inside its path does not advance. |
| EnemyMovement.AnimateOne | hooks/useEnemyMovement.ts:54-106 | An enemy without a definition or with fewer than two waypoints is returned unchanged, together with the maps. Direction values stay ±1 and progress stays within the path. |
| EnemyMovement.AnimateAllPreserves | hooks/useEnemyMovement.ts:52-110 | A frame returns one position per position, with the same ids. Non-patrolling enemies keep their positions. Directions stay ±1 and progress stays within each path. |
| EnemyMovement.AnimateFrame | hooks/useEnemyMovement.ts:52-110 | The positions and maps after the `prev.map` loop are those of `AnimateAll`, and they keep the map invariants. |
| EnemyMovement.InitialPositions | hooks/useEnemyMovement.ts:27-33 | Every enemy sits at the centre of its first waypoint, in list order. |
| EnemyMovement.PatrolEnemies.constructor | hooks/useEnemyMovement.ts:12-16 | No enemies and no positions, empty progress and direction maps, and the frame clock at the given reading. |
| EnemyMovement.PatrolEnemies.Initialise | hooks/useEnemyMovement.ts:18-39 | Without enemies, the positions and both maps are emptied. Otherwise each enemy starts at its first waypoint with progress 0 and direction +1, and the entries of unlisted ids are kept. |
| EnemyMovement.PatrolEnemies.StartAnimation | hooks/useEnemyMovement.ts:41-46 | The effect's start resets the frame clock and nothing else. |
| EnemyMovement.PatrolEnemies.Animate | hooks/useEnemyMovement.ts:41-117 | No frame runs without enemies or while inactive. Otherwise positions, progress and direction become `AnimateAll` over the elapsed seconds, and the clock advances. |
| StalkerEnemies.FadedOpacity | hooks/useStalkerEnemies.ts:378-381 | While activated and below 1, the opacity grows by `dt * 0.05`, capped at 1. It never decreases for `dt >= 0`. |
| StalkerEnemies.UpdateStalker | hooks/useStalkerEnemies.ts:372-432 | The flags and id are kept, and the opacity fades in. A dormant stalker, or one at the end of the trail, only fades. Otherwise the index rises by exactly 1 when the stalker is within 3 pixels of the target, in which case it snaps onto the target. The index never falls. |
| StalkerEnemies.Pursue | hooks/useStalkerEnemies.ts:401-431 | Within 3 pixels the stalker snaps to the target and advances the index. Farther away it keeps the index. |
| StalkerEnemies.StepTowardTarget | hooks/useStalkerEnemies.ts:421-431 | A chasing step at the true distance goes straight toward the target and is exactly `speed` long. |
| StalkerEnemies.ChaseStep | hooks/useStalkerEnemies.ts:401-431 | An activated stalker farther than 3 pixels from its target takes exactly that chasing step at a positive true distance. Its position alone changes. |
| StalkerEnemies.InitialStates | hooks/useStalkerEnemies.ts:269-287 | There is exactly one state per listed id. Each is the start state of a listed stalker: at its start cell centre, both flags false, opacity 0 and index 0. Every state is well formed for an empty trail. |
| StalkerEnemies.BuildStartStates | hooks/useStalkerEnemies.ts:272-283 | The `forEach` builds exactly `InitialStates`. |
| StalkerEnemies.UpdateAll | hooks/useStalkerEnemies.ts:434-453 | Each listed stalker with a state is updated from its pre-frame state, and states of unlisted ids are dropped. |
| StalkerEnemies.UpdateAllPreserves | hooks/useStalkerEnemies.ts:372-453 | A frame keeps every state well formed: opacity in [0, 1], index within the trail, activated only if triggered. The flags are unchanged and no index moves back. |
| StalkerEnemies.UpdateFrame | hooks/useStalkerEnemies.ts:440-450 | The loop computes exactly `UpdateAll`. |
| StalkerEnemies.TriggeredKeepsStates | hooks/useStalkerEnemies.ts:306-322 | The trigger check keeps every state well formed against a trail grown by one cell. |
| StalkerEnemies.ActivatedKeepsStates | hooks/useStalkerEnemies.ts:337-358 | The activation check keeps every state well formed. |
| StalkerEnemies.TriggerStates | hooks/useStalkerEnemies.ts:306-322 | The `forEach` over the stalkers computes exactly `Triggered`. That reference map sets `isTriggered` on the states of ids whose trigger cell is the new cell and changes nothing else. |
| StalkerEnemies.ActivateStates | hooks/useStalkerEnemies.ts:337-358 | The `forEach` over the stalkers computes exactly `Activated`. That reference map activates the triggered, dormant stalkers at least three cells from their trigger cell, invisible and at index `max(0, pathLength - 1)`, and changes nothing else. |
| StalkerEnemies.StalkerTracker.constructor | hooks/useStalkerEnemies.ts:259-287 | Start states for all stalkers, an empty trail and no last cell. |
| StalkerEnemies.StalkerTracker.Initialise | hooks/useStalkerEnemies.ts:269-287 | Re-running the init effect restores the start states and forgets the trail. |
| StalkerEnemies.StalkerTracker.ResetStalkers | hooks/useStalkerEnemies.ts:479-497 | All stalkers go back to their start states, and the trail and last cell are cleared. |
| StalkerEnemies.StalkerTracker.TrackPlayer | hooks/useStalkerEnemies.ts:290-326 | While active, entering a new cell appends it to the trail and triggers the stalkers whose trigger cell it is. Otherwise nothing changes. No cell appears twice in a row on the trail. |
| StalkerEnemies.StalkerTracker.CheckActivation | hooks/useStalkerEnemies.ts:329-370 | While active, the states become `Activated`. While inactive, nothing changes. |
| StalkerEnemies.StalkerTracker.StartUpdates | hooks/useStalkerEnemies.ts:455-466 | Starting the loop resets the frame clock only. |
| StalkerEnemies.StalkerTracker.UpdateStalkers | hooks/useStalkerEnemies.ts:434-453 | While active, the states become `UpdateAll`, with the elapsed time measured in 16.67 ms frames, and the clock advances. While inactive, nothing changes. |
| GameAtoms.RecordedModeAsWritten | atoms/gameAtoms.js:20-30 | As written, the recorder's mode slot receives `extraLivesUsed`. |
| GameAtoms.AsWrittenWinHiddenFromModeList | atoms/gameAtoms.js:20-30 | As written, a recorded win never appears in a top list filtered by its own mode. |
| GameAtoms.RecordedMode | atoms/gameAtoms.js:9-33 | The corrected call stores the game's mode name. |
| GameAtoms.WinRecord | utils/score-manager.tsx:151-175 | The stored record carries the level, time, pet, attempts, deaths, timestamp and mode of the win. |
| GameAtoms.WinListedUnderItsMode | atoms/gameAtoms.js:9-33 | With the mode stored, a win is listed under its mode whenever the limit admits a record. |
| GameAtoms.GameFlags.constructor | atoms/gameAtoms.js:5-6 | Both atoms start false. |
| GameAtoms.GameFlags.RecordWin | atoms/gameAtoms.js:9-33 | When already won, it returns null and records nothing. Otherwise it sets the won flag and records the completion with details: stats, progress, and the sorted list with the new record. The record carries the corrected mode, `RecordedMode`, not the `extraLivesUsed` the source passes. |
| GameAtoms.GameFlags.RecordDeath | atoms/gameAtoms.js:36-49 | The same one-shot pattern on `isDead`: at most one death is recorded until the next reset. |
| GameAtoms.GameFlags.ResetGameState | atoms/gameAtoms.js:52-55 | Both flags become false. |
| GameTimer.Timer.constructor | hooks/useGameTimer.ts:4-7 | Zero elapsed time, no start, no pause, no interval. |
| GameTimer.Timer.TickEffect | hooks/useGameTimer.ts:49-69 | The effect leaves an interval exactly when the timer is active, started (a truthy start time) and not paused. |
| GameTimer.Timer.Rerender | hooks/useGameTimer.ts:49-69 | The effect re-runs exactly when `isActive` or `startTime` differs from the previous render: the interval then exists exactly when the timer is active, started and not paused. Otherwise the interval is kept. |
| GameTimer.Timer.SetActive | hooks/useGameTimer.ts:3-69 | A new `isActive` argument re-runs the effect: the interval exists exactly when the timer is active, started and not paused. The same argument keeps the interval. The clock values never change. |
| GameTimer.Timer.Start | hooks/useGameTimer.ts:9-14 | `startTime = now`, `gameTime = 0`, `pausedAt = null`. |
| GameTimer.Timer.Pause | hooks/useGameTimer.ts:16-21 | The interval stops and `pausedAt` takes the current elapsed time. |
| GameTimer.Timer.Resume | hooks/useGameTimer.ts:23-30 | When paused, `startTime = now - pausedAt` and the pause is cleared. When not paused, nothing changes. |
| GameTimer.Timer.Stop | hooks/useGameTimer.ts:32-38 | Returns the elapsed time unchanged and stops the interval. |
| GameTimer.Timer.Reset | hooks/useGameTimer.ts:40-47 | Zeroes the elapsed time, clears the start time and the interval, and leaves `pausedAt` as it was. |
| GameTimer.Timer.Tick | hooks/useGameTimer.ts:51-54 | A firing sets `gameTime = now - startTime` only for an active, started, unpaused timer. |
| ScoreManager.DefaultStats | utils/score-manager.tsx:40-52 | Missing stats are zero counters with null times. |
| ScoreManager.DefaultProgress | utils/score-manager.tsx:94-102 | Missing progress is level 1, nothing completed, level 1 unlocked. |
| ScoreManager.Completed | utils/score-manager.tsx:72-92 | Completions rise by 1. The first completion time is set only if not already set (truthy). `isNewRecord` holds exactly when there is no best time or the new time is faster, and then the best time is the new time. |
| ScoreManager.BestTimeIsMinimum | utils/score-manager.ts:60-80 | After a run of positive times, the best time is the minimum of all times seen and the first completion time is the first one ever recorded. |
| ScoreManager.PushNew | utils/score-manager.tsx:104-116 | `includes`/`push` adds the element once, keeps the list in front, and adds no duplicates. |
| ScoreManager.NextUncompletedLevel | utils/score-manager.tsx:129-135 | Returns the smallest unlocked-but-uncompleted level, or the current level when there is none. |
| ScoreManager.AddProgress | utils/score-manager.tsx:104-121 | The level becomes completed and the next one unlocked, with no duplicates. The current level becomes the next uncompleted level. |
| ScoreManager.AddProgressIdempotent | utils/score-manager.tsx:104-121 | Recording the same completed level twice has the effect of recording it once. |
| ScoreManager.InsertKeepsSorted | utils/score-manager.tsx:176-184 | Inserting by time into a sorted list keeps it sorted. |
| ScoreManager.InsertByTime | utils/score-manager.tsx:176-182 | One record is added: the result is one longer and holds the old records plus the new one. |
| ScoreManager.SortByTime | utils/score-manager.tsx:182 | The sort is ascending by completion time and is a permutation of its input. |
| ScoreManager.SliceTo | utils/score-manager.tsx:203 | `slice(0, limit)` is a prefix of length `min(limit, length)`, and negative limits count from the end. |
| ScoreManager.WithMode | utils/score-manager.tsx:196-200 | Keeps exactly the records of the mode, with their multiplicities. |
| ScoreManager.TopCompletions | utils/score-manager.tsx:189-204 | An empty store gives nothing. The result has at most `limit` records, sorted ascending, all of the given mode, and is a sub-multiset of the stored list. It is every matching record when the limit allows. Nothing left out is faster than anything kept. |
| ScoreManager.FastestFirst | utils/score-manager.tsx:196-203 | Sorting and cutting keep only stored records, at most `limit` of them, in order. |
| ScoreManager.CutIsFastest | utils/score-manager.tsx:196-203 | The records the cut leaves out are no faster than those it keeps. |
| ScoreManager.PetCompletions | utils/score-manager.tsx:206-221 | As written, the result is exactly the pet's records. |
| ScoreManager.PetCompletionsIgnoreMode | utils/score-manager.tsx:212-220 | As written, the result does not depend on the mode argument. |
| ScoreManager.PetCompletionsModeLeak | utils/score-manager.tsx:212-220 | A chaos record is returned for a normal-mode request. |
| ScoreManager.PetCompletionsByMode | utils/score-manager.tsx:206-221 | The corrected lookup returns exactly the pet's records of the given mode, or all of them when no mode is given. |
| ScoreManager.ScoreStore.constructor | utils/score-manager.tsx:30-38 | An empty store: no stats, no progress and no completion lists. |
| ScoreManager.ScoreStore.GetLevelStats | utils/score-manager.tsx:40-52 | Returns the stored stats, or the defaults for the level. |
| ScoreManager.ScoreStore.GetGameProgress | utils/score-manager.tsx:94-102 | Returns the stored progress, or the default progress. |
| ScoreManager.ScoreStore.GetStartLevel | utils/score-manager.tsx:137-140 | Returns the stored current level, or 1. |
| ScoreManager.ScoreStore.IsLevelUnlocked | utils/score-manager.ts:130-133 | Membership in the unlocked levels (level 1 only without stored progress). |
| ScoreManager.ScoreStore.RecordAttempt | utils/score-manager.tsx:54-61 | Exactly `totalAttempts` rises by 1. The other stored families are unchanged. |
| ScoreManager.ScoreStore.RecordDeath | utils/score-manager.tsx:63-70 | Exactly `totalDeaths` rises by 1. The other stored families are unchanged. |
| ScoreManager.ScoreStore.UpdateProgress | utils/score-manager.tsx:104-121 | The stored progress becomes `AddProgress` of the previous progress. |
| ScoreManager.ScoreStore.SetCurrentLevel | utils/score-manager.ts:111-115 | Only `currentLevel` changes. |
| ScoreManager.ScoreStore.RecordCompletion | utils/score-manager.tsx:72-92 | Stores `Completed` and `AddProgress`, and returns the completion result. |
| ScoreManager.ScoreStore.RecordCompletionWithDetails | utils/score-manager.tsx:151-187 | As `RecordCompletion`. In addition, the level's list becomes sorted by time and holds the old records plus the new one, and no other list changes. |
| ScoreManager.ScoreStore.ClearAllData | utils/score-manager.tsx:223-239 | Every score key (stats, progress, completion lists) is deleted, so every score read returns its default. |
| ScoreManager.ScoreStore.GetTopCompletions | utils/score-manager.tsx:189-204 | `TopCompletions` on the level's stored list. |
| ScoreManager.ScoreStore.GetPetCompletions | utils/score-manager.tsx:206-221 | The pet's records of the level in the given mode. This is the corrected filter, `PetCompletionsByMode`, and not the source's pet-only filter. |
| Pets.GetDefaultPet | data/pets.tsx:53 | The first pet, the hamster. |
| Pets.Find | data/pets.tsx:55-57 | `find`: the index of the first pet with the id, or none exactly when no pet has it. |
| Pets.GetPetById | data/pets.tsx:55-57 | Always a member of the table. It is the pet with the id when one exists, and the default pet otherwise. |
| Pets.FindOwnId | data/pets.tsx:10-51 | With distinct ids, each pet is found at its own index. |
| Pets.PetByIdRoundTrip | data/pets.tsx:10-57 | Every pet is found by its own id. |
| GameRules.GetResponsiveMazeSize | app/game/index.tsx:33-45 | The size lies in [300, 600], or [300, 720] for more than 10 rows. It equals the floored 80% of the smaller screen side (times 1.2 for large layouts) when that lies inside the range, and the nearer bound otherwise. |
| GameRules.BallSize | app/game/index.tsx:108 | `Math.floor(MAZE_SIZE / 15)`: the largest whole number of fifteenths within the maze size. For any maze size in [300, 720] it lies in [20, 48]. |
| GameRules.FirstStop | app/game/index.tsx:224-263 | The scan stops at the first sample on a wall or danger cell. Every earlier sample is neither. |
| GameRules.Classify | app/game/index.tsx:200-302 | What a candidate centre runs into, in test order: outside the bounding box, then the first stopping sample (wall before danger), then an enemy within two radii, else clear. Each case holds exactly under its condition. |
| GameRules.SecretWallsArePassable | app/game/index.tsx:224-233 | With every sample on a path or secret-wall cell, only an enemy can stop the ball. |
| GameRules.EatSnack | app/game/index.tsx:305-329 | The key is added, and a life is gained only if the key was new. |
| GameRules.EatSnackIdempotent | app/game/index.tsx:305-329 | Eating the same snack again changes nothing. |
| GameRules.GridEatenExact | app/game/index.tsx:175 | The eaten regular snacks number as many as the regular snack cells exactly when every regular snack is eaten. |
| GameRules.NewStarsAsWritten | app/game/index.tsx:175-183 | As written, each star holds exactly under its rule. The mode and time stars and the lives star are as in `NewStars`. The snack star compares the number of eaten snacks, secret ones included, with the number of regular snack cells. |
| GameRules.AsWrittenDiffersInSnackStarOnly | app/game/index.tsx:175-183 | The as-written stars and the corrected ones differ in the snack star alone. |
| GameRules.AsWrittenSecretSnackCounts | app/game/index.tsx:175-180 | As written, a secret snack stands in for a regular one left uneaten. |
| GameRules.AsWrittenSecretSnackBlocksStar | app/game/index.tsx:175-180 | As written, eating the secret snack as well as every regular one withholds the star. |
| GameRules.NewStars | app/game/index.tsx:174-183 | Each star holds exactly under its rule. The mode stars follow the mode. The snack star needs at least one regular snack, with every regular snack eaten. The time star needs a (truthy) limit that is met. The lives star needs no life used. |
| GameRules.MergeStars | app/game/index.tsx:185-192 | The merge keeps every stored and every new star and adds nothing else, so a stored star is never lost. |
| GameRules.MergeStarsIdempotent | app/game/index.tsx:185-192 | Saving the same completion twice stores what saving it once stores. |
| GameRules.NextLevelId | app/game/index.tsx:545-560 | Stays in [1, maxLevel]. Goes one up below the last level. At the last level it goes back to 1 once the last level is completed, and stays otherwise. |
| GameRules.PreviousLevelId | app/game/index.tsx:563-576 | Stays in [1, maxLevel]. Goes one down above level 1. At level 1 it goes to the last level once the last level is completed, and stays otherwise. |
| GameRules.PreviousUndoesNext | app/game/index.tsx:545-576 | Going back undoes going forward. At the wrap this holds once the last level is completed. |
| GameRules.NextUndoesPrevious | app/game/index.tsx:545-576 | Going forward undoes going back. At the wrap this holds once the last level is completed. |
| GameRules.Jump10Forward | app/game/index.tsx:579-583 | Exactly `current + 10` when that is a level, and the last level otherwise. Never below the current level. |
| GameRules.Jump10Backward | app/game/index.tsx:586-589 | Exactly `current - 10` when that is at least 1, and 1 otherwise. |
| GameRules.ModeString | app/game/index.tsx:366 | The mode's string value: "normal" or "chaos". |
| GameRules.GetButtonTitle | app/game/index.tsx:639-644 | "Continue" exactly while respawning, "Restart" once dead or counted down, "Ready" otherwise. |
| Game.ScanSamples | app/game/index.tsx:224-263 | The sample loop stops at exactly `FirstStop`. |
| Game.EnemyContact | app/game/index.tsx:268-275 | True exactly when some enemy is closer than two ball radii. |
| Game.TargetFromHistory | app/game/index.tsx:449-452 | A history result is a valid respawn target. |
| Game.TargetNearestSafe | app/game/index.tsx:453-460 | Failing the history, the centre of the nearest safe cell is the target. |
| Game.TargetUnchanged | app/game/index.tsx:453-460 | Failing both, the ball stays where it is. |
| Game.GameScreen.constructor | app/game/index.tsx:81-108 | The screen opens at the initial level (1 for none) with the start position, zero velocity, an empty history and a cleared timer. |
| Game.GameScreen.ClockMeansPlay | app/game/index.tsx:594-605 | Whenever the timer's argument holds, the ball is not frozen and the enemies move (the enemy hook's argument at line 444). Whenever the ball is frozen while the screen has focus, the timer and the enemies stop too. |
| Game.GameScreen.Render | app/game/index.tsx:594 | The timer hook receives `!isGameWon && !isDead && !isGamePaused && isCountdownComplete && !isRespawning`. The screen stays valid, and an interval runs only while that expression holds. The clock values are unchanged. |
| Game.GameScreen.SetFocused | app/game/index.tsx:144-151 | Gaining focus clears `isGamePaused` and losing it sets it, followed by a render. A screen without focus has no running interval. Its state, saved data and clock values are unchanged. |
| Game.GameScreen.MoveBall | app/game/index.tsx:596-605 | The physics frame runs with the screen's frozen flag: frozen while dead, paused, counting down or respawning. It reschedules exactly when the game is neither won nor frozen, changes nothing when it is, and otherwise takes the NORMAL or CHAOS step. |
| Game.GameScreen.LoadInitialData | app/game/index.tsx:116-127 | The flags are cleared, and the completed levels and the saved lives are loaded. |
| Game.GameScreen.MoveToRespawnPoint | app/game/index.tsx:448-460 | The ball is moved to the respawn target: a history point, else a nearest-safe-cell centre, else unchanged. |
| Game.GameScreen.TriggerRespawn | app/game/index.tsx:448-475 | Moves the ball to the respawn target and clears the outcome flags. One life is spent and the count saved, `extraLivesUsed` rises by 1, and the timer pauses at its elapsed time. |
| Game.GameScreen.SurviveHazard | app/game/index.tsx:238-243 | Sets the respawning flag, then runs `TriggerRespawn`. |
| Game.GameScreen.Die | app/game/index.tsx:244-263 | A death is recorded once, and the screen keeps the stats it returns. |
| Game.GameScreen.EatSnackAt | app/game/index.tsx:305-329 | On a snack or secret-snack cell, the snack is eaten (`EatSnack`). A new key saves the snacks and the lives. Other cells change nothing. |
| Game.GameScreen.SaveStars | app/game/index.tsx:174-197 | The merged stars are saved and shown. |
| Game.GameScreen.ReachGoal | app/game/index.tsx:332-367 | Processed once until the guard is cleared. The timer stops, the level is marked completed, and the merged stars are saved and shown. The win is recorded at the elapsed time in a sorted completion list. The stars use the corrected `NewStars` and the record the corrected `RecordedMode`. A repeated hit changes nothing. |
| Game.GameScreen.Probe | app/game/index.tsx:200-302 | The screen's tests compute exactly `Classify` on the current level. |
| Game.GameScreen.HitHazard | app/game/index.tsx:236-301 | Blocked exactly when no life is banked. With a life there is a respawn and no store change. Without one the death is recorded once, and the ball and timer are untouched. |
| Game.GameScreen.Touch | app/game/index.tsx:236-337 | The side effects of a contact. Out-of-bounds and walls block and change nothing. A danger cell or an enemy runs `HitHazard` and blocks exactly when no life is banked. A clear cell runs `EnterCell` and does not block. Each case states the whole new state. |
| Game.GameScreen.EnterCell | app/game/index.tsx:305-337 | A snack or secret-snack cell is eaten as in `EatSnackAt`, and a new key saves the snacks and the lives. The goal cell is processed as in `ReachGoal` when its guard is clear. Every other case changes neither the screen state, the saved data, the flags, the timer nor the store. |
| Game.GameScreen.CheckCollision | app/game/index.tsx:200-438 | The contact is `ContactAt` of the candidate centre. The move is blocked exactly for out-of-bounds, walls, and hazards without a life. Out-of-bounds and walls change nothing. A hazard with a life spends it, saves the count, moves the ball to the respawn target and pauses the timer at its elapsed time. A hazard without one records the death once. A clear move eats a snack, saving the snacks and lives, or processes the goal once: stars, saved stars, the stopped timer and the sorted completion list. Each case states the whole new state. |
| Game.GameScreen.RecordBallPosition | app/game/index.tsx:626-630 | While the ball is in play, its position goes into the respawn history. Otherwise the history is unchanged. |
| Game.GameScreen.CountdownComplete | app/game/index.tsx:136-164 | After a respawn the timer resumes. Otherwise the timer starts once per attempt. |
| Game.GameScreen.RearmCountdown | app/game/index.tsx:482-489 | During a respawn only the flags are cleared and the countdown re-armed. |
| Game.GameScreen.ResetPlay | app/game/index.tsx:492-499 | The timer, ball and history go back to their starting states. |
| Game.GameScreen.RestartAttempt | app/game/index.tsx:490-519 | With no life banked, the snacks are cleared. Otherwise the saved snacks are reloaded. An attempt is recorded and the countdown re-armed. |
| Game.GameScreen.ResetGame | app/game/index.tsx:478-520 | The win guard is cleared. Then either the countdown is re-armed (when respawning) or the attempt restarts. |
| Game.GameScreen.NavigateToLevel | app/game/index.tsx:522-542 | Sets exactly the level id and level, clears the win guard, zeroes the lives used, and clears `isReady` and the countdown. It clears the flags and resets the timer, ball velocity and history. The ball goes to the new start position, computed with the maze size of the level being left. Eaten snacks, stats, stars, the attempt number and the respawn flag carry over. |
| Game.GameScreen.NextLevel | app/game/index.tsx:545-560 | Opens `NextLevelId`. |
| Game.GameScreen.PreviousLevel | app/game/index.tsx:563-576 | Opens `PreviousLevelId`. |
| Game.GameScreen.Jump10ForwardLevel | app/game/index.tsx:579-583 | Opens `Jump10Forward`. |
| Game.GameScreen.Jump10BackwardLevel | app/game/index.tsx:586-589 | Opens `Jump10Backward`. |

## Left out

- Rendering, sounds, haptics, alerts, the explosion and victory animations, and navigation are not modelled: they are user interface.
- The goal's delayed follow-up is not modelled: the top-list mode badges, the alerts, and the last-level reset in the alert's button (app/game/index.tsx:368-430). It runs in a timeout after an alert.
- Trigonometry is not modelled: the 16 circumference sample points are a parameter.
- Floating point is not modelled: positions are reals. Every square root is either a squared-distance comparison or an injected `hypot`/`segmentLength` function that squares to the sum of squares.
- `Date.now`, `requestAnimationFrame`, `setTimeout` and `setInterval` are not modelled: clock readings are parameters, and each frame or tick is one method call.
- React batching, stale closures and effect ordering are not modelled: the model is sequential, and a state update is visible to the next statement. For example, `checkCollision` reading a stale `extraLives` is not modelled.
- The sensor subscriptions, `CRUDManager`/`storage` persistence and `useLevelData` are left out. The saved lives, snacks and stars are the `Saved` record, and the score store is typed maps.
- `getCurrentLevel` (data/maze-layouts is not part of this model) is not modelled: the screen takes its list of levels as a parameter.
- `getDisplayName` and the translation layer are not modelled: the pet name is a parameter.
- `getStalkerPositions` is not modelled: it only projects the states for rendering.
- The commented-out first stalker hook (hooks/useStalkerEnemies.ts:1-234) is dead code and is not modelled.
- utils/game-helpers.tsx is modelled by `GameHelpers.GetPosition`: its `getPosition` is the same computation as the one in utils/game-helpers.ts.
- utils/score-manager.ts is modelled by the same `ScoreManager` module as utils/score-manager.tsx, because its functions are identical to the `.tsx` ones.
- Game.GameScreen.NavigateToLevel: requires the target level to exist, since `getCurrentLevel` for an id outside the list is not modelled. All four navigation handlers satisfy this.
- EnemyMovement.PatrolEnemies.Initialise: requires every enemy to have a first waypoint. The source reads `path[0]` without a check and would fail on an empty path.
- StalkerEnemies.StalkerTracker.UpdateStalkers: requires the clock not to run backwards (`now` at least the last frame's reading). A negative elapsed time would fade a stalker out below opacity 0, and the source does not guard against that.
- StalkerEnemies.StalkerTracker.constructor: requires a positive cell size, as every level has.
- ScoreManager.SortByTime: states ascending order and permutation only, not that records with equal times keep their relative order (`Array.prototype.sort` is stable).
- ScoreManager.Completed: `bestTime` and `firstCompletionTime` are tested for truthiness as in the source, so a stored time of 0 counts as missing. A completion time of 0 cannot occur in play, so this is modelled as written and not reported.
- GameTimer.Timer.Resume: the start time moves by the saved pause, but the interval restarts only when the start time value actually changes. That follows the effect's dependency list.
- Physics.BallPhysics.UpdateBallPosition: the animation-frame chain is reduced to the returned "rescheduled" flag.
- GameAtoms.GameFlags.RecordWin: stores the corrected mode (`RecordedMode`), not the `extraLivesUsed` the source passes in the mode slot. The screen runs the corrected program; the as-written behaviour is `RecordedModeAsWritten` (see Findings).
- ScoreManager.ScoreStore.GetPetCompletions: uses the corrected filter (`PetCompletionsByMode`); the source's pet-only filter is `PetCompletions` (see Findings).
- Game.GameScreen.MergedStars: merges the corrected `NewStars`. The as-written snack star is `NewStarsAsWritten` (see Findings), so `SaveStars`, `ReachGoal`, `EnterCell`, `Touch` and `CheckCollision` run the corrected star rule and the corrected recorded mode.
- ScoreManager.ScoreStore.ClearAllData: deletes the score keys only. The source's `store.keys()` loop also deletes the lives, eaten-snack, star and selected-pet keys; in this model those live in `Game.Saved` (and the pet is a parameter), which `ClearAllData` does not touch.
- The reload that `useLevelData`'s `[currentLevelId]` effect runs after a level change (hooks/useLevelData.ts:27-47: stats, eaten snacks, stars and the mode-completion badges) is not modelled, so after `NavigateToLevel` those fields keep the previous level's values.
- The screen's handlers do not re-render by themselves: `Render` is a separate call, so the timer's interval follows the flags only once `Render` runs (for example, after `Die` the interval stops at the next `Render`).
- Game.GameScreen.MoveBall: takes the collision test as a pure parameter. The screen's side-effecting `checkCollision` is the separate `CheckCollision`.
- `EnemiesActive` is the argument for `PatrolEnemies.Animate`; the screen does not own the patrol enemies, so the two are not connected in the model.
- The stalker hook is not used by the game screen (app/game/index.tsx never calls `useStalkerEnemies`), so `StalkerTracker` is not connected to `GameScreen`.

## Findings

| source | as written | input that shows it | evidently intended | confidence | as-written member | corrected member |
|---|---|---|---|---|---|---|
| utils/score-manager.tsx:212-220 | `getPetCompletions` builds a mode-filtered list, `filteredCompletions`, then returns `completions.filter(c => c.petId === petId)`, so the `gyroMode` argument is ignored | a stored chaos record for pet "cat", requested with mode "normal", comes back | return the mode-filtered list | high, not executed | ScoreManager.PetCompletionsModeLeak | ScoreManager.PetCompletionsByMode |
| atoms/gameAtoms.js:20-30 | `recordWinAtom` passes nine arguments to the eight-parameter `recordCompletionWithDetails`; the eighth slot, `gyroMode`, receives `extraLivesUsed` and the mode is dropped | any win: the record's mode is a number, so a top list filtered by "normal" or "chaos" never lists it | pass the game's mode in the mode slot | high, not executed | GameAtoms.AsWrittenWinHiddenFromModeList | GameAtoms.WinListedUnderItsMode |
| app/game/index.tsx:175-180 | the snack star compares the size of the eaten set, which also holds secret snacks (code 6), with the number of regular snack cells (code 4) | layout `[[4, 6]]`: eating only the secret snack earns the star; eating both withholds it | grant the star exactly when every regular snack is eaten | medium, not executed | GameRules.AsWrittenSecretSnackCounts | GameRules.NewStars |
