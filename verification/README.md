# Phoenix simulation core in Dafny

A model of the simulation core of Phoenix, a pseudo-3D endless-runner
arcade game: the axis-aligned rectangle collision test, the player
craft's per-frame kinematics, the start-menu latch, and the game's
five-state mode machine behind its frame-skip gate. All arithmetic is over
Dafny `real` (no `f32`/`f64` rounding).

Files (one module each):

- `engine.dfy` — `Engine`: the four move intents (`MoveKeys`) and a
  `Frame` (time plus keys), the input the host loop feeds in.
- `rectangles.dfy` — `Rectangles`: `Rectangle` with the closed-interval
  collision test, and the `move_x`/`move_y`/`get_center` operations the
  player calls (modelled as shifts of the center's first and second
  coordinate; they are called from `src/player.rs` but not defined in
  `src/rectangle.rs`).
- `players.dfy` — `Players`: the `Player` record and `Update`, the
  per-frame step (speed, then lateral move with the new speed, then roll,
  then forward move), plus `Run` over a sequence of frames.
- `menus.dfy` — `Menus`: the start-menu latch.
- `games.dfy` — `Games`: `GameMode`, `Game`, `Run` and `Runs`. The level
  (map, player and projection) is an abstract type `L` reached through
  `LevelOps`: `reset`, `update` and the `checkGameOver` oracle.
  `Game::new` builds its level internally; here the built level is a
  parameter.

Notes on fidelity:

- `Game.last_update_time` is assigned only in `Game::new` and never
  advanced, so the frame-skip gate always measures time since the game was
  built. The model keeps this (`Games.RunsKeepReferenceTime`): the code,
  and its test of three calls at 0.45, 0.9 and 1.35 frame periods
  (src/game.rs:176-182), measure from construction, and the model follows
  the code.
- `PLAYER_WIDTH` is a crate-level constant defined outside the modelled files; it is
  the parameter `playerWidth` of `Players.New` and `Players.FloatHeight`.
- `TILT_ANGLE_RAD` is 45 degrees in radians, a multiple of pi; it is the
  positive parameter `tiltRad` of `Players.RollAngle`, whose contract
  fixes only the sign of the bank angle.
- The source files come from diverging snapshots (`Level::new` and
  `Player::new` arities differ between files); each file's own code is
  modelled.

## Model

| member | source | states |
|---|---|---|
| Rectangles.New | src/rectangle.rs:7-9 | the constructor stores the given center and size unchanged; non-negative sizes give a well-formed rectangle |
| Rectangles.Collision | src/rectangle.rs:11-21 | the test holds iff the closed X intervals and the closed Z intervals of the two rectangles (center plus or minus half the size) both overlap |
| Rectangles.CollisionAxes | src/rectangle.rs:11-21 | collision holds iff 2·\|Δx\| ≤ wA+wB and 2·\|Δz\| ≤ dA+dB, both non-strict |
| Rectangles.CollisionSymmetric | src/rectangle.rs:11-21 | collision(a, b) == collision(b, a) |
| Rectangles.SameCenterCollide | src/rectangle.rs:11-21 | two rectangles with non-negative sizes and the same center always collide |
| Rectangles.CollisionTranslationInvariant | src/rectangle.rs:11-21 | moving both rectangles by the same (dx, dz) leaves the verdict unchanged |
| Rectangles.CollisionIffCommonPoint | src/rectangle.rs:11-21 | for non-negative sizes, collision holds iff some point lies in both closed rectangles (touching counts) |
| Rectangles.UnitSquaresX | src/rectangle.rs:28-40 | unit squares at (0,0) and (1,0) collide (edges touch); at (0,0) and (3,0) they do not |
| Rectangles.UnitSquaresZ | src/rectangle.rs:42-54 | unit squares at (0,0) and (0,1) collide; at (0,0) and (0,3) they do not |
| Rectangles.MoveX | src/player.rs:157-165 | `move_x` shifts the center's first coordinate by dx and leaves the second coordinate and the size alone |
| Rectangles.MoveZ | src/player.rs:181-183 | `move_y` shifts the center's second (Z) coordinate by dz and leaves X and the size alone |
| Rectangles.MoveXContains | src/player.rs:157-165 | the rectangle moved by dx on X contains p exactly when the original contains p shifted back by dx |
| Rectangles.MoveZContains | src/player.rs:181-183 | the rectangle moved by dz on Z contains p exactly when the original contains p shifted back by dz |
| Rectangles.MoveXCompose | src/player.rs:157-165 | two X moves add up, and a move followed by its opposite restores the rectangle |
| Rectangles.MoveZCompose | src/player.rs:181-183 | two Z moves add up, and a move followed by its opposite restores the rectangle |
| Rectangles.MoveExamples | src/player.rs:157-165 | a square at the origin moved +10 then −20 on one axis is centered at −10 on that axis and 0 on the other |
| Rectangles.GetCenter | src/player.rs:185-187 | `get_center` returns the midpoint of the rectangle's X edges and of its Z edges, which lies inside a well-formed rectangle |
| Players.New | src/player.rs:30-38 | a new player sits at (0, PLAYER_Z) with size (width, PLAYER_DEPTH), floats FLOAT_HEIGHT above map_y, has speed INITAL_FWD_SPEED, roll Level, last update = the given time, and starts inside the speed envelope |
| Players.GetSpeedPu | src/player.rs:40-42 | the speed fraction maps back to the speed (MIN + r·(MAX−MIN) = speed) and lies in [0, 1] whenever the speed is within [MIN_SPEED, MAX_SPEED] |
| Players.SpeedPuAtStart | src/player.rs:40-42 | the speed fraction of a new player is 0 |
| Players.RollAngle | src/player.rs:58-64 | the bank angle is 0 iff Level, negative iff Left, positive iff Right, and has magnitude 0 or the tilt |
| Players.TimeSinceLastUpdate | src/player.rs:177-179 | last update time plus the elapsed time is the current time |
| Players.UpdateFwdSpeed | src/player.rs:141-155 | the new speed is in [MIN_SPEED, MAX_SPEED]; it equals the speed plus (up − down)·dt·FWD_ACELERATION when that is in range, else the nearer bound |
| Players.UpdateSidePosition | src/player.rs:157-165 | (`update_size_position`) x moves by −dt·speed for left alone, +dt·speed for right alone and 0 for both or neither; z and size unchanged |
| Players.UpdateRollPosition | src/player.rs:167-175 | roll is Left iff left alone, Right iff right alone, Level iff both or neither |
| Players.UpdateForwardPosition | src/player.rs:181-183 | z advances by speed·dt; x and size unchanged |
| Players.GetPosition | src/player.rs:185-187 | the position is the midpoint of the player's rectangle on both axes (inside it when well-formed) |
| Players.Update | src/player.rs:130-139 | the timestamp becomes the current time; y and size never change; with elapsed time ≤ 0 nothing else changes; with elapsed time > 0 the speed ends in the envelope; the envelope is preserved |
| Players.UpdateSpeed | src/player.rs:141-148 | after a positive step, up adds and down subtracts dt·FWD_ACELERATION before clamping; both held from inside the envelope keep the speed |
| Players.UpdateLateral | src/player.rs:157-165 | after a positive step, left alone decreases x and right alone increases x by dt times the already-updated speed; both or neither leave x unchanged |
| Players.UpdateRoll | src/player.rs:167-175 | after a positive step roll is Left iff left alone and Right iff right alone, and the bank angle is negative / positive / zero accordingly |
| Players.UpdateForward | src/player.rs:130-139 | after a positive step z increases by (updated speed)·dt whatever the keys, so strictly |
| Players.NewPlayerPlacement | src/player.rs:236-247 | a player built at map_y = −400 has y = −400 + FLOAT_HEIGHT, and one built at map_y = 0 is at (0, PLAYER_Z) |
| Players.FirstStepForward | src/player.rs:273-298 | from a new player, one positive step with no keys gives z = PLAYER_Z + INITAL_FWD_SPEED·dt, and with up held z exceeds that |
| Players.FirstStepSideways | src/player.rs:249-271 | from a new player, one positive step with left gives x < 0, with right x > 0, with both x = 0 |
| Players.RunInvariant | src/player.rs:130-155 | over any sequence of updates from inside the envelope the speed stays in [MIN_SPEED, MAX_SPEED], y and size never change, and z never decreases |
| Players.RunStraight | src/player.rs:157-165 | over a sequence of updates where left and right are always both held or both released, x never changes |
| Menus.New | src/startmenu.rs:13-15 | a new menu does not request a level start |
| Menus.Update | src/startmenu.rs:19-23 | up sets the latch; without up the menu is unchanged; a set latch stays set |
| Menus.RequestLevelStart | src/startmenu.rs:24-26 | the request is true exactly for the latched menu |
| Menus.UpdatesLatch | src/startmenu.rs:19-23 | after a sequence of updates the latch is set iff it was set before or up was held in at least one of them |
| Menus.LatchMonotone | src/startmenu.rs:19-23 | once set, the latch stays set across any sequence of updates |
| Games.New | src/game.rs:26-34 | a new game is in StartMenu with an unlatched menu, last_update_time = the given time and gameover_timestamp = 0 |
| Games.SkipFrame | src/game.rs:62-67 | the frame is not skipped iff current time ≥ last_update_time + FRAME_UPDATE_SECONDS (equality is not skipped) |
| Games.RunStartMenu | src/game.rs:69-74 | the menu is updated; the mode becomes StartToLevel when the updated latch is set and is otherwise unchanged; level and timestamps are untouched |
| Games.InitLevel | src/game.rs:76-79 | the level is reset at the current time and the mode becomes Level; menu and timestamps are untouched |
| Games.RunGame | src/game.rs:81-86 | the level is updated with the time and keys; the mode becomes ToGameOver when the updated level reports game over and is otherwise unchanged |
| Games.InitGameOver | src/game.rs:88-91 | gameover_timestamp becomes the current time and the mode GameOver; level, menu and last_update_time are untouched |
| Games.RunGameOver | src/game.rs:93-98 | strictly more than GAMEOVER_TIME_SECONDS after the game over the mode becomes Level with a reset level; at or before that nothing changes |
| Games.Run | src/game.rs:36-47 | a skipped frame changes nothing; otherwise the mode follows one edge of the mode machine or stays; last_update_time never changes; the menu changes only in StartMenu |
| Games.StartMenuStep | src/game.rs:69-74 | in StartMenu the menu is updated and the mode becomes StartToLevel iff the latch is set afterwards, else stays StartMenu; the level is untouched |
| Games.StartToLevelStep | src/game.rs:76-79 | StartToLevel resets the level at the current time and enters Level |
| Games.LevelStep | src/game.rs:81-86 | in Level the level is updated, and the mode becomes ToGameOver iff the updated level reports game over, else stays Level |
| Games.ToGameOverStep | src/game.rs:88-91 | ToGameOver records gameover_timestamp := current time and enters GameOver, leaving the level alone |
| Games.GameOverStep | src/game.rs:93-98 | GameOver goes to Level with a reset level iff strictly more than GAMEOVER_TIME_SECONDS have passed since gameover_timestamp; otherwise nothing changes |
| Games.GameOverBoundary | src/game.rs:93-98 | at exactly GAMEOVER_TIME_SECONDS after the game over the game stays in GameOver |
| Games.RunsKeepLastUpdateTime | src/game.rs:36-47 | no sequence of frames changes last_update_time |
| Games.RunsKeepReferenceTime | src/game.rs:62-67 | after any frames, a game built at t0 skips a call at t iff t − t0 < FRAME_UPDATE_SECONDS |
| Games.NeverBackToStartMenu | src/game.rs:36-47 | once out of StartMenu, no sequence of frames returns the game to it |
| Games.SkipFrameExamples | src/game.rs:164-182 | on a new game, calls at 0.9 and 0.45 periods skip, at 1.0, 1.1 and 1.35 periods they do not; the gate keeps no state between calls |
| Games.FirstUpStartsLevel | src/game.rs:135-145 | from a new game, up at 0.1 s moves to StartToLevel without touching the level |
| Games.StartSequenceEndsInLevel | src/game.rs:147-162 | frames none/up/up/up at 0.1 s steps end in Level, with the level reset at 0.3 s and updated at 0.4 s, when that level does not report game over |

## Left out

- Drawing: `Player::draw`, `get_triangle_corners`, `draw_body`, `project_shadow`, `draw_shadow`, `draw_triangle`, `StartMenu::draw` and `Game::draw` only render (with cos/sin for the wedge shape); nothing in them affects the simulation.
- `Player::get_y` and `get_shape` are plain field reads (`p.y`, `p.shape`).
- The level, map, obstacles and projection (`src/level.rs`, `src/map.rs`, `src/obstacle.rs`, `src/projection.rs`) are not part of this model: their versions call functions with signatures that the other files do not provide. The game treats the level as an abstract collaborator.
- The engine wrappers (`src/engine.rs`) and the frame loop (`src/main.rs`) are I/O: rendering, the clock, keyboard polling and the random source. Time and keys are parameters.
- Floating point: `f32`/`f64` rounding and the `f64`-to-`f32` cast of the elapsed time are not modelled; all quantities are reals.
- Players.RollAngle: states only the sign and magnitude of the bank angle in terms of a positive `tiltRad`, because the source's value is pi/4.
