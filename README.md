# A verified model of the pong-rs game update

pong-rs is a Pong clone written in Rust on SDL2. The player's paddle sits on
the left, an opponent paddle that tracks the ball sits on the right, and a
ball bounces between them. Each frame the main loop calls `update` with the
elapsed milliseconds. `update` changes the one `GameState` in place, in
seven steps:

1. the ball moves by its velocity times the elapsed time;
2. the sign of its x-velocity is forced away from any paddle it overlaps;
3. the sign of its y-velocity is forced away from the top and bottom edges;
4. a ball at or past a goal line scores for the other side and restarts at
   the centre;
5. the opponent paddle is put level with the ball;
6. the player paddle moves with the Up and Down keys;
7. both paddles are clamped onto the screen.

This project models that update in Dafny, along with the entity model it
uses and the initial state the game starts from.

- `entity.dfy` (module `Entity`) holds the value types `FVec`, `Rect` and
  `RectObject`. `RectObject::new` is the datatype constructor
  `RectObject(rect, position, velocity)`. The module also defines
  `RectObject::world_rect` (`WorldRect`), `FVec::zero` (`Zero`), SDL's
  rectangle intersection test (`Intersects`), and the Rust operations the
  update relies on:
  - `i32 / 2`, which rounds toward zero (`Half`);
  - `f32::abs` (`Abs`);
  - `f32::clamp` (`Clamp`).
- `game.dfy` (module `Game`) has the state and the frame.
  - `State` is the gameplay part of `GameState`.
  - There is one pure function per step, and `Step` composes them in the
    source's order.
  - `Initial` is the state `main` builds.
  - The class `GameState` holds the same fields and changes them in place.
    Its `Update` method runs each commented section of `update` as a small
    method that modifies only the fields that section writes. `Update` is
    proved to leave the object in the state `Step` computes from the old
    one.
- `properties.dfy` (module `Properties`) proves what one frame promises, in
  terms of `Step`:
  - scoring and the ball's reset;
  - the sign forcing of the velocity and the magnitudes it keeps;
  - the opponent's tracking and the player's movement;
  - that the bounces and the clamp are idempotent.

  It also defines `Run`, the state after any sequence of frames, with its
  invariants, and three concrete frames from the initial state.
- `score_text.dfy` (module `ScoreText`) models the score line
  `"{score_1} - {score_2}"` that the draw step renders. It proves that both
  scores can be read back from the line, so the line tells any two pairs of
  scores apart.

Modelling choices:
- Single-precision floats are exact reals.
- `floor() as i32` is `.Floor`.
- The keyboard query becomes two booleans, `upHeld` and `downHeld`.
- Integers are unbounded.
- SDL's `Rect` is not part of this model. Its sizes are taken to be
  positive: SDL's `Rect::new` stores a zero size as one, and every rectangle
  the game builds has positive sizes. With positive sizes, `a & b != None`
  holds exactly when the rectangles overlap in an area of positive size on
  both axes, and that is how `Intersects` is defined.
- `f32::clamp` panics when its lower bound exceeds its upper bound. So
  `update` requires `Playable`: for each paddle,
  `rect.h / 2 <= screen.h - rect.h / 2`. The initial state meets this
  (`Initial` ensures `Playable`), and every frame keeps it (`Step` and
  `Run` ensure `Playable`).

## Model

| member | source | states |
|---|---|---|
| `Entity.Half` | src/main.rs:166-180 | Rust's `/ 2` on `i32` rounds toward zero: the remainder `n - 2r` is 0 or 1 for `n >= 0` and 0 or -1 for `n < 0` (so `-25 / 2` is `-12`) |
| `Entity.Abs` | src/main.rs:71-83 | `abs` is non-negative and equals its argument or its negation |
| `Entity.Clamp` | src/main.rs:112-118 | the clamped value lies in `[lo, hi]`, is the value itself when that is inside, and is the nearer bound otherwise |
| `Entity.WorldRect` | src/main.rs:40-45 | the world rectangle keeps the local size, and its corner minus the local offset is the floor of the position on each axis |
| `Entity.Advance` | src/main.rs:66-67 | integration moves the position by velocity × dt on each axis and changes nothing else |
| `Entity.Zero` | src/main.rs:18-20 | `FVec::zero()` is the vector whose x and y are both 0 |
| `Entity.Intersects` | src/main.rs:69-76 | `a & b != None` for rectangles with positive sizes: the two overlap strictly, in an area of positive size, on both axes. Any pixel inside both implies an overlap, and an overlap always contains one: the pixel at the larger left edge and the larger top edge |
| `Entity.AdvanceAdditive` | src/main.rs:66-67 | two integration steps travel as far as one step over the summed time |
| `Game.BounceOffPaddles` | src/main.rs:69-76 | the magnitude of vx is kept; overlapping paddle 2 makes vx <= 0; overlapping only paddle 1 makes vx >= 0; overlapping neither changes nothing; only vx may change |
| `Game.BounceOffWalls` | src/main.rs:78-84 | the magnitude of vy is kept; a ball whose bottom reaches the screen height gets vy <= 0; a ball whose top is at or above 0 (and bottom not reaching the screen height) gets vy >= 0; otherwise nothing changes; only vy may change |
| `Game.ScorePoint` | src/main.rs:86-98 | x <= 0 adds exactly 1 to `score_2`, leaves `score_1` and recentres the ball; x >= screen.w does the mirror for `score_1`; a ball inside the court changes nothing; scores never fall and their total rises by at most 1; the velocity is kept |
| `Game.TrackBall` | src/main.rs:100-101 | the opponent paddle's y becomes the ball's y; nothing else of the paddle changes |
| `Game.MovePlayer` | src/main.rs:103-109 | holding only Up moves the paddle's y by -dt, only Down by +dt, and both or neither leaves it in place; only y may change |
| `Game.ClampPaddle` | src/main.rs:111-118 | the clamped paddle is on screen (`y` in `[h/2, screen.h - h/2]`); a paddle already there is unchanged; one above or below is put on the nearer bound; only y may change |
| `Game.UpdateBall` | src/main.rs:65-98 | the ball sections leave the paddles, the screen and the ball's local rect alone, keep the magnitudes of vx and vy, never lower a score and raise the total by at most 1 |
| `Game.UpdatePaddles` | src/main.rs:100-118 | the paddle sections leave the ball, the screen and the scores alone and change only the paddles' y; paddle 2 ends at the ball's y clamped, paddle 1 at its key-moved y clamped, both on screen |
| `Game.Step` | src/main.rs:64-119 | a frame leaves the screen, all local rects, the paddles' x-positions and velocities unchanged; scores never fall and their total rises by at most 1; both paddles end on screen and the clamp bounds stay ordered |
| `Game.Initial` | src/main.rs:158-192 | the initial state is playable on an 800×600 screen with scores 0. Both paddles have the local rect `(-12, -50, 25, 100)` (with `-25/2` truncated to -12), are at rest, and start at `(25, 300)` and `(775, 300)`, on screen. The ball has the local rect `(-12, -12, 25, 25)`, starts at the centre `(400, 300)` and moves with velocity `(-0.25, 0.25)` |
| `Game.GameState.constructor` | src/main.rs:158-192 | a new game state holds exactly the initial state |
| `Game.GameState.Update` | src/main.rs:64-119 | updating in place leaves the object in the state `Step` computes from its old state |
| `Game.GameState.MoveBallStep` | src/main.rs:65-67 | the ball field becomes the ball integrated over dt; no other field changes |
| `Game.GameState.CollideWithPaddles` | src/main.rs:69-76 | the ball field becomes the paddle-bounced ball; no other field changes |
| `Game.GameState.CollideWithWalls` | src/main.rs:78-84 | the ball field becomes the wall-bounced ball; no other field changes |
| `Game.GameState.CheckScore` | src/main.rs:86-98 | the ball and the scores become those of `ScorePoint`; the paddles and the screen do not change |
| `Game.GameState.FollowBall` | src/main.rs:100-101 | paddle 2 is put level with the ball; no other field changes |
| `Game.GameState.MoveOnInput` | src/main.rs:103-109 | paddle 1 moves as `MovePlayer` says; no other field changes |
| `Game.GameState.ClampPaddles` | src/main.rs:111-118 | both paddles are clamped onto the screen; no other field changes |
| `Properties.StepLeftGoal` | src/main.rs:86-92 | when the moved ball is at or past x = 0, the frame adds exactly 1 to `score_2`, leaves `score_1` and puts the ball at `(w/2, h/2)` |
| `Properties.StepRightGoal` | src/main.rs:93-98 | when the moved ball is at or past x = screen.w, the frame adds exactly 1 to `score_1`, leaves `score_2` and puts the ball at `(w/2, h/2)` |
| `Properties.StepNoGoal` | src/main.rs:86-98 | when the moved ball is strictly inside the court, neither score changes and the ball stays at its integrated position |
| `Properties.StepScoresIff` | src/main.rs:86-98 | the score total rises by one if and only if the moved ball has left the court, and stays the same if and only if it is inside |
| `Properties.StepBallVelocity` | src/main.rs:69-84 | after a frame the magnitudes of vx and vy are kept, and their signs are forced by what the moved ball overlaps; paddle 2 beats paddle 1 and the bottom edge beats the top |
| `Properties.StepOpponentTracks` | src/main.rs:100-118 | paddle 2's final y is the ball's final y clamped to `[h/2, screen.h - h/2]` |
| `Properties.StepPlayerMoves` | src/main.rs:103-118 | paddle 1's final y is its old y moved by the one held key (both held: unchanged, in exact arithmetic), then clamped |
| `Properties.NoTimeKeepsBall` | src/main.rs:64-119 | with dt = 0 and the ball inside the court, the ball stays put and the scores are unchanged, while the paddles are still clamped on screen |
| `Properties.BouncesIdempotent` | src/main.rs:69-84 | forcing the velocity signs a second time changes nothing |
| `Properties.ClampIdempotent` | src/main.rs:111-118 | clamping a clamped paddle changes nothing |
| `Properties.Run` | src/main.rs:202-226 | over any sequence of frames: the screen and local rects are fixed; the state stays playable; the scores never fall; their total grows by at most the number of frames; after at least one frame both paddles are on screen |
| `Properties.RunKeepsPaddleColumns` | src/main.rs:64-119 | over any sequence of frames the paddles' x-positions never change |
| `Properties.RunKeepsBallSpeed` | src/main.rs:69-84 | over any sequence of frames the ball's speed along each axis, `abs(vx)` and `abs(vy)`, never changes: paddles and edges only flip the sign of the velocity |
| `Properties.LeftExitScenario` | src/main.rs:86-92 | from ball `(0, 300)` with velocity `(-5, 0)`, one frame of dt = 10 gives `score_2 == 1`, `score_1 == 0` and the ball at `(400, 300)` |
| `Properties.TopBounceScenario` | src/main.rs:78-81 | a ball whose world top is at -1, moving with velocity `(0, -3)`, leaves any frame with dt >= 0 with vy = 3 |
| `Properties.PaddleClampScenario` | src/main.rs:111-114 | a player paddle at y = 0 (height 100, screen 600) ends the frame at y = 50 |
| `ScoreText.Digits` | src/main.rs:129 | an `i32` is written as at least one decimal digit, with no leading zero |
| `ScoreText.Decimal` | src/main.rs:129 | an `i32` as `{}` writes it: it starts with `-` exactly when the number is negative. The rest is at least one decimal digit of its magnitude, with no leading zero unless the number is 0. There is no space anywhere |
| `ScoreText.DecimalRoundTrip` | src/main.rs:129 | reading back the decimal text of any integer gives that integer |
| `ScoreText.Line` | src/main.rs:129 | the line `"{score_1} - {score_2}"` can be parsed back: the text before its first space reads back as `score_1`, the separator `" - "` follows, and the rest reads back as `score_2` |
| `ScoreText.LineInjective` | src/main.rs:129 | two score lines `"{score_1} - {score_2}"` are equal only when both pairs of scores are equal |

## Left out

- Drawing (`draw` and `RectObject::draw`): SDL canvas, texture and font calls, each aborting through `unwrap` on failure. Only the score string it renders is modelled (`ScoreText.Line`). The text's centring depends on font metrics.
- The main loop, `Instant` timing, event polling and the quit check on Escape, Q or the Quit event: I/O and wall-clock time. `Properties.Run` takes the frames' elapsed times and held keys as a given sequence.
- SDL context, window, canvas, event-pump and font setup in `main`, and the `event` and `font` fields of `GameState`: foreign library state. `GameState` keeps only the gameplay fields.
- The keyboard query `keyboard_state().is_scancode_pressed(...)`: replaced by the boolean parameters `upHeld` and `downHeld`.
- The `println!` logging on a score: output only.
- IEEE single-precision rounding, NaN and infinities, and the saturation of `f32 as i32` casts: positions and velocities are exact reals. In particular, after `y - dt + dt` the paddle is exactly back where it was.
- Overflow of the `i32` scores (`score += 1`) and of `screen.h - rect.h / 2`: integers are unbounded.
- SDL `Rect` internals: `Rect::new` never stores a size below 1, and the only fact the model uses is that sizes are positive (`Entity.Extent`). The sdl2 crate's upper bounds on coordinates and sizes are not part of this model.
- `Entity.Intersects` models `a & b != None` for rectangles with positive sizes only, which is the only case the game produces.
- `Game.GameState.Update`: the body of `update` is one function in the source. Here each of its commented sections is a method of its own, called in the same order, so that each section's proof stays small.
- `Game.GameState.Update` requires the paddle clamp bounds to be ordered, because `f32::clamp` panics otherwise. The panic path itself is not modelled.
