/**
 What a frame of `update`, and a run of frames, promises about the game
 state, proved about the specification `Game.Step`.
 */
module Properties {
  import opened Entity
  import opened Game

  /** A moved ball at or past the left goal line scores for the right
      player and restarts at the centre. */
  lemma StepLeftGoal(s: State, dt: real, upHeld: bool, downHeld: bool)
    requires Playable(s)
    requires Advance(s.ball, dt).position.x <= 0.0
    ensures var t := Step(s, dt, upHeld, downHeld);
            t.score2 == s.score2 + 1 && t.score1 == s.score1 && t.ball.position == Centre(s.screen)
  {
    var b1 := Advance(s.ball, dt);
    var s4 := ScorePoint(s.(ball := BounceOffWalls(BounceOffPaddles(b1, s.paddle1, s.paddle2), s.screen)));
    assert UpdateBall(s, dt) == s4;
    assert Step(s, dt, upHeld, downHeld) == UpdatePaddles(s4, dt, upHeld, downHeld);
  }

  /** A moved ball at or past the right goal line scores for the left player
      and restarts at the centre. */
  lemma StepRightGoal(s: State, dt: real, upHeld: bool, downHeld: bool)
    requires Playable(s)
    requires Advance(s.ball, dt).position.x >= s.screen.w as real
    ensures var t := Step(s, dt, upHeld, downHeld);
            t.score1 == s.score1 + 1 && t.score2 == s.score2 && t.ball.position == Centre(s.screen)
  {
    var b1 := Advance(s.ball, dt);
    var s4 := ScorePoint(s.(ball := BounceOffWalls(BounceOffPaddles(b1, s.paddle1, s.paddle2), s.screen)));
    assert UpdateBall(s, dt) == s4;
    assert Step(s, dt, upHeld, downHeld) == UpdatePaddles(s4, dt, upHeld, downHeld);
  }

  /** A moved ball inside the court scores for no one and stays where its
      velocity carried it. */
  lemma StepNoGoal(s: State, dt: real, upHeld: bool, downHeld: bool)
    requires Playable(s)
    requires InCourt(Advance(s.ball, dt).position.x, s.screen)
    ensures var t := Step(s, dt, upHeld, downHeld);
            t.score1 == s.score1 && t.score2 == s.score2 && t.ball.position == Advance(s.ball, dt).position
  {
    var b1 := Advance(s.ball, dt);
    var s4 := ScorePoint(s.(ball := BounceOffWalls(BounceOffPaddles(b1, s.paddle1, s.paddle2), s.screen)));
    assert UpdateBall(s, dt) == s4;
    assert Step(s, dt, upHeld, downHeld) == UpdatePaddles(s4, dt, upHeld, downHeld);
  }

  /** The score total rises by one exactly when the moved ball has left the
      court, and is unchanged otherwise. */
  lemma StepScoresIff(s: State, dt: real, upHeld: bool, downHeld: bool)
    requires Playable(s)
    ensures var t := Step(s, dt, upHeld, downHeld);
            (t.score1 + t.score2 == s.score1 + s.score2 + 1 <==> !InCourt(Advance(s.ball, dt).position.x, s.screen))
    ensures var t := Step(s, dt, upHeld, downHeld);
            (t.score1 + t.score2 == s.score1 + s.score2 <==> InCourt(Advance(s.ball, dt).position.x, s.screen))
  {
    if Advance(s.ball, dt).position.x <= 0.0 {
      StepLeftGoal(s, dt, upHeld, downHeld);
    } else if Advance(s.ball, dt).position.x >= s.screen.w as real {
      StepRightGoal(s, dt, upHeld, downHeld);
    } else {
      StepNoGoal(s, dt, upHeld, downHeld);
    }
  }

  /** The ball's velocity after a frame: its magnitude along each axis is
      kept, and its sign is forced away from whatever the moved ball
      touches, the right paddle over the left one and the bottom edge over
      the top one. A scoring reset keeps the velocity. */
  lemma StepBallVelocity(s: State, dt: real, upHeld: bool, downHeld: bool)
    requires Playable(s)
    ensures var t := Step(s, dt, upHeld, downHeld);
            var b := Advance(s.ball, dt);
            var r := WorldRect(b);
            Abs(t.ball.velocity.x) == Abs(s.ball.velocity.x) &&
            Abs(t.ball.velocity.y) == Abs(s.ball.velocity.y) &&
            (Hits(b, s.paddle2) ==> t.ball.velocity.x <= 0.0) &&
            (Hits(b, s.paddle1) && !Hits(b, s.paddle2) ==> t.ball.velocity.x >= 0.0) &&
            (!Hits(b, s.paddle1) && !Hits(b, s.paddle2) ==> t.ball.velocity.x == s.ball.velocity.x) &&
            (r.y + r.h >= s.screen.h ==> t.ball.velocity.y <= 0.0) &&
            (r.y <= 0 && r.y + r.h < s.screen.h ==> t.ball.velocity.y >= 0.0) &&
            (0 < r.y && r.y + r.h < s.screen.h ==> t.ball.velocity.y == s.ball.velocity.y)
  {
    var b1 := Advance(s.ball, dt);
    var b2 := BounceOffPaddles(b1, s.paddle1, s.paddle2);
    var b3 := BounceOffWalls(b2, s.screen);
    assert WorldRect(b2) == WorldRect(b1);
    var s4 := ScorePoint(s.(ball := b3));
    assert s4.ball.velocity == b3.velocity;
    assert UpdateBall(s, dt) == s4;
    assert Step(s, dt, upHeld, downHeld) == UpdatePaddles(s4, dt, upHeld, downHeld);
  }

  /** The opponent paddle ends level with the ball, as far as the screen allows. */
  lemma StepOpponentTracks(s: State, dt: real, upHeld: bool, downHeld: bool)
    requires Playable(s)
    ensures var t := Step(s, dt, upHeld, downHeld);
            t.paddle2.position.y == Clamp(t.ball.position.y, MinY(s.paddle2), MaxY(s.paddle2, s.screen))
  {
  }

  /** The player paddle moves by `dt` in the direction of the one key held,
      stays put with neither or both held, and is then clamped onto the screen. */
  lemma StepPlayerMoves(s: State, dt: real, upHeld: bool, downHeld: bool)
    requires Playable(s)
    ensures var t := Step(s, dt, upHeld, downHeld);
            var y := s.paddle1.position.y;
            var moved := if upHeld && !downHeld then y - dt
                         else if downHeld && !upHeld then y + dt
                         else y;
            t.paddle1.position.y == Clamp(moved, MinY(s.paddle1), MaxY(s.paddle1, s.screen))
  {
    assert Step(s, dt, upHeld, downHeld) == UpdatePaddles(UpdateBall(s, dt), dt, upHeld, downHeld);
  }

  /** With no time elapsed and the ball inside the court, a frame leaves the
      ball where it is, though it still forces velocities and clamps paddles. */
  lemma NoTimeKeepsBall(s: State, upHeld: bool, downHeld: bool)
    requires Playable(s)
    requires InCourt(s.ball.position.x, s.screen)
    ensures var t := Step(s, 0.0, upHeld, downHeld);
            t.ball.position == s.ball.position &&
            t.score1 == s.score1 && t.score2 == s.score2 &&
            OnScreen(t.paddle1, t.screen) && OnScreen(t.paddle2, t.screen)
  {
    StepNoGoal(s, 0.0, upHeld, downHeld);
  }

  /** Sign forcing is idempotent: forcing a second time changes nothing. */
  lemma BouncesIdempotent(ball: RectObject, paddle1: RectObject, paddle2: RectObject, screen: Rect)
    ensures var b := BounceOffPaddles(ball, paddle1, paddle2);
            BounceOffPaddles(b, paddle1, paddle2) == b
    ensures var b := BounceOffWalls(ball, screen);
            BounceOffWalls(b, screen) == b
  {
    var b := BounceOffPaddles(ball, paddle1, paddle2);
    assert WorldRect(b) == WorldRect(ball);
    var c := BounceOffWalls(ball, screen);
    assert WorldRect(c) == WorldRect(ball);
  }

  /** Clamping is idempotent: a clamped paddle is not moved by a second clamp. */
  lemma ClampIdempotent(paddle: RectObject, screen: Rect)
    requires ClampOrdered(paddle, screen)
    ensures ClampPaddle(ClampPaddle(paddle, screen), screen) == ClampPaddle(paddle, screen)
  {
  }

  // ---------------------------------------------------------------------
  // Runs of frames, as the main loop performs them.

  /** One iteration of the main loop: elapsed milliseconds and the keys held. */
  datatype Frame = Frame(dt: real, upHeld: bool, downHeld: bool)

  /** The state after `update` has run once per frame, in order. */
  function Run(s: State, frames: seq<Frame>): (t: State)
    requires Playable(s)
    ensures Playable(t)
    ensures t.screen == s.screen
    ensures t.paddle1.rect == s.paddle1.rect && t.paddle2.rect == s.paddle2.rect && t.ball.rect == s.ball.rect
    ensures s.score1 <= t.score1 && s.score2 <= t.score2
    ensures t.score1 + t.score2 <= s.score1 + s.score2 + |frames|
    ensures |frames| > 0 ==> OnScreen(t.paddle1, t.screen) && OnScreen(t.paddle2, t.screen)
    decreases |frames|
  {
    if frames == [] then s
    else Run(Step(s, frames[0].dt, frames[0].upHeld, frames[0].downHeld), frames[1..])
  }

  /** The paddles' x-positions never change over a run. */
  lemma {:induction false} RunKeepsPaddleColumns(s: State, frames: seq<Frame>)
    requires Playable(s)
    ensures Run(s, frames).paddle1.position.x == s.paddle1.position.x
    ensures Run(s, frames).paddle2.position.x == s.paddle2.position.x
    decreases |frames|
  {
    if frames != [] {
      RunKeepsPaddleColumns(Step(s, frames[0].dt, frames[0].upHeld, frames[0].downHeld), frames[1..]);
    }
  }

  /** The ball's speed along each axis never changes over a run: the paddles
      and the edges only ever flip the sign of its velocity. */
  lemma {:induction false} RunKeepsBallSpeed(s: State, frames: seq<Frame>)
    requires Playable(s)
    ensures Abs(Run(s, frames).ball.velocity.x) == Abs(s.ball.velocity.x)
    ensures Abs(Run(s, frames).ball.velocity.y) == Abs(s.ball.velocity.y)
    decreases |frames|
  {
    if frames != [] {
      var f := frames[0];
      StepBallVelocity(s, f.dt, f.upHeld, f.downHeld);
      RunKeepsBallSpeed(Step(s, f.dt, f.upHeld, f.downHeld), frames[1..]);
    }
  }

  // ---------------------------------------------------------------------
  // Concrete frames from the initial state.

  /** A ball at the left edge moving left scores for the right player and
      restarts at the centre of the 800 by 600 screen. */
  lemma LeftExitScenario()
    ensures var s0 := Initial();
            var s := s0.(ball := s0.ball.(position := FVec(0.0, 300.0), velocity := FVec(-5.0, 0.0)));
            var t := Step(s, 10.0, false, false);
            t.score2 == 1 && t.score1 == 0 && t.ball.position == FVec(400.0, 300.0)
  {
    var s0 := Initial();
    var s := s0.(ball := s0.ball.(position := FVec(0.0, 300.0), velocity := FVec(-5.0, 0.0)));
    StepLeftGoal(s, 10.0, false, false);
  }

  /** A ball whose top is one pixel above the screen and which moves up is
      sent down at the same speed, however long the frame. */
  lemma TopBounceScenario(dt: real)
    requires dt >= 0.0
    ensures var s0 := Initial();
            var s := s0.(ball := s0.ball.(position := FVec(400.0, 11.0), velocity := FVec(0.0, -3.0)));
            Step(s, dt, false, false).ball.velocity.y == 3.0
  {
    var s0 := Initial();
    var s := s0.(ball := s0.ball.(position := FVec(400.0, 11.0), velocity := FVec(0.0, -3.0)));
    var b := Advance(s.ball, dt);
    assert b.position.y <= 11.0;
    assert WorldRect(b).y <= -1;
    StepBallVelocity(s, dt, false, false);
  }

  /** A player paddle at the very top is clamped down to half its height. */
  lemma PaddleClampScenario()
    ensures var s0 := Initial();
            var s := s0.(paddle1 := s0.paddle1.(position := FVec(25.0, 0.0)));
            Step(s, 10.0, false, false).paddle1.position.y == 50.0
  {
    var s0 := Initial();
    var s := s0.(paddle1 := s0.paddle1.(position := FVec(25.0, 0.0)));
    StepPlayerMoves(s, 10.0, false, false);
  }
}
