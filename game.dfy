/**
 The game state and its per-frame update. `Step` composes the seven phases
 of `update` as pure functions on a `State` value, in the order the game
 runs them; the class `GameState` holds the same fields and changes them in
 place, and its `Update` method is proved to agree with `Step`.
 */
module Game {
  import opened Entity

  /** The gameplay fields of the game state (the event pump and the font
      are not part of the model). */
  datatype State = State(
    paddle1: RectObject,
    paddle2: RectObject,
    ball: RectObject,
    screen: Rect,
    score1: int,
    score2: int)

  /** Lowest y a paddle's centre may take: half its height, rounded toward zero. */
  function MinY(p: RectObject): real
  {
    Half(p.rect.h) as real
  }

  /** Highest y a paddle's centre may take. */
  function MaxY(p: RectObject, screen: Rect): real
  {
    (screen.h - Half(p.rect.h)) as real
  }

  /** The bounds of the paddle clamp are ordered, so `f32::clamp` does not panic. */
  predicate ClampOrdered(p: RectObject, screen: Rect)
  {
    Half(p.rect.h) <= screen.h - Half(p.rect.h)
  }

  /** What `update` needs of a state: both paddle clamps have ordered bounds. */
  predicate Playable(s: State)
  {
    ClampOrdered(s.paddle1, s.screen) && ClampOrdered(s.paddle2, s.screen)
  }

  /** The paddle's centre lies inside the screen by at least half its height. */
  predicate OnScreen(p: RectObject, screen: Rect)
  {
    MinY(p) <= p.position.y <= MaxY(p, screen)
  }

  /** The point a scoring ball is put back to. */
  function Centre(screen: Rect): FVec
  {
    FVec(Half(screen.w) as real, Half(screen.h) as real)
  }

  /** The ball's x lies strictly between the two goal lines. */
  predicate InCourt(x: real, screen: Rect)
  {
    0.0 < x < screen.w as real
  }

  /** The ball's world rectangle overlaps the paddle's. */
  predicate Hits(ball: RectObject, paddle: RectObject)
  {
    Intersects(WorldRect(ball), WorldRect(paddle))
  }

  // ---------------------------------------------------------------------
  // The seven phases of `update`, in order. Phase 1 is `Entity.Advance`
  // applied to the ball.

  /** Phase 2: the x-velocity is forced to point away from a paddle the ball
      overlaps; the right paddle is checked second and wins. */
  function BounceOffPaddles(ball: RectObject, paddle1: RectObject, paddle2: RectObject): (b: RectObject)
    ensures Abs(b.velocity.x) == Abs(ball.velocity.x)
    ensures Hits(ball, paddle2) ==> b.velocity.x <= 0.0
    ensures Hits(ball, paddle1) && !Hits(ball, paddle2) ==> b.velocity.x >= 0.0
    ensures !Hits(ball, paddle1) && !Hits(ball, paddle2) ==> b == ball
    ensures b == ball.(velocity := ball.velocity.(x := b.velocity.x))
  {
    var v1 := if Hits(ball, paddle1) then Abs(ball.velocity.x) else ball.velocity.x;
    var vx := if Hits(ball, paddle2) then -Abs(v1) else v1;
    ball.(velocity := ball.velocity.(x := vx))
  }

  /** Phase 3: the y-velocity is forced away from the top edge when the ball's
      top is at or above it, and away from the bottom edge when the ball's
      bottom is at or below it; the bottom is checked second and wins. */
  function BounceOffWalls(ball: RectObject, screen: Rect): (b: RectObject)
    ensures Abs(b.velocity.y) == Abs(ball.velocity.y)
    ensures WorldRect(ball).y + ball.rect.h >= screen.h ==> b.velocity.y <= 0.0
    ensures WorldRect(ball).y <= 0 && WorldRect(ball).y + ball.rect.h < screen.h ==> b.velocity.y >= 0.0
    ensures 0 < WorldRect(ball).y && WorldRect(ball).y + ball.rect.h < screen.h ==> b == ball
    ensures b == ball.(velocity := ball.velocity.(y := b.velocity.y))
  {
    var r := WorldRect(ball);
    var v1 := if r.y <= 0 then Abs(ball.velocity.y) else ball.velocity.y;
    var vy := if r.y + r.h >= screen.h then -Abs(v1) else v1;
    ball.(velocity := ball.velocity.(y := vy))
  }

  /** Phase 4: a ball at or past the left goal line scores for the right
      player, one at or past the right goal line for the left player; a
      scoring ball is put back at the centre and keeps its velocity. */
  function ScorePoint(s: State): (t: State)
    ensures s.ball.position.x <= 0.0 ==>
      t.score2 == s.score2 + 1 && t.score1 == s.score1 && t.ball.position == Centre(s.screen)
    ensures s.ball.position.x >= s.screen.w as real ==>
      t.score1 == s.score1 + 1 && t.score2 == s.score2 && t.ball.position == Centre(s.screen)
    ensures InCourt(s.ball.position.x, s.screen) ==> t == s
    ensures s.score1 <= t.score1 && s.score2 <= t.score2
    ensures t.score1 + t.score2 <= s.score1 + s.score2 + 1
    ensures t == s.(ball := s.ball.(position := t.ball.position), score1 := t.score1, score2 := t.score2)
  {
    var s1 := if s.ball.position.x <= 0.0
              then s.(score2 := s.score2 + 1, ball := s.ball.(position := Centre(s.screen)))
              else s;
    if s1.ball.position.x >= s1.screen.w as real
    then s1.(score1 := s1.score1 + 1, ball := s1.ball.(position := Centre(s1.screen)))
    else s1
  }

  /** Phase 5: the opponent paddle is put level with the ball. */
  function TrackBall(paddle: RectObject, ball: RectObject): (p: RectObject)
    ensures p.position.y == ball.position.y
    ensures p == paddle.(position := paddle.position.(y := p.position.y))
  {
    paddle.(position := paddle.position.(y := ball.position.y))
  }

  /** Phase 6: the player paddle moves up by `dt` while the up key is held and
      down by `dt` while the down key is held; holding both leaves it in place. */
  function MovePlayer(paddle: RectObject, dt: real, upHeld: bool, downHeld: bool): (p: RectObject)
    ensures upHeld == downHeld ==> p == paddle
    ensures upHeld && !downHeld ==> p.position.y == paddle.position.y - dt
    ensures downHeld && !upHeld ==> p.position.y == paddle.position.y + dt
    ensures p == paddle.(position := paddle.position.(y := p.position.y))
  {
    var y1 := if upHeld then paddle.position.y - 1.0 * dt else paddle.position.y;
    var y2 := if downHeld then y1 + 1.0 * dt else y1;
    paddle.(position := paddle.position.(y := y2))
  }

  /** Phase 7, for one paddle: its y is clamped onto the screen. */
  function ClampPaddle(paddle: RectObject, screen: Rect): (p: RectObject)
    requires ClampOrdered(paddle, screen)
    ensures OnScreen(p, screen)
    ensures OnScreen(paddle, screen) ==> p == paddle
    ensures paddle.position.y < MinY(paddle) ==> p.position.y == MinY(paddle)
    ensures paddle.position.y > MaxY(paddle, screen) ==> p.position.y == MaxY(paddle, screen)
    ensures p == paddle.(position := paddle.position.(y := p.position.y))
  {
    paddle.(position := paddle.position.(y := Clamp(paddle.position.y, MinY(paddle), MaxY(paddle, screen))))
  }

  // ---------------------------------------------------------------------
  // One whole frame.

  /** Phases 1 to 4: the ball moves, bounces and may score. The paddles and
      the screen are untouched. */
  function UpdateBall(s: State, dt: real): (t: State)
    ensures t.paddle1 == s.paddle1 && t.paddle2 == s.paddle2 && t.screen == s.screen
    ensures t.ball.rect == s.ball.rect
    ensures Abs(t.ball.velocity.x) == Abs(s.ball.velocity.x)
    ensures Abs(t.ball.velocity.y) == Abs(s.ball.velocity.y)
    ensures s.score1 <= t.score1 && s.score2 <= t.score2
    ensures t.score1 + t.score2 <= s.score1 + s.score2 + 1
  {
    var ball1 := Advance(s.ball, dt);
    var ball2 := BounceOffPaddles(ball1, s.paddle1, s.paddle2);
    var ball3 := BounceOffWalls(ball2, s.screen);
    assert ball3.position == ball1.position;
    ScorePoint(s.(ball := ball3))
  }

  /** Phases 5 to 7: the opponent follows the ball, the player moves, and both
      are clamped. The ball, the scores and the screen are untouched. */
  function UpdatePaddles(s: State, dt: real, upHeld: bool, downHeld: bool): (t: State)
    requires Playable(s)
    ensures t.ball == s.ball && t.screen == s.screen
    ensures t.score1 == s.score1 && t.score2 == s.score2
    ensures t.paddle1 == s.paddle1.(position := s.paddle1.position.(y := t.paddle1.position.y))
    ensures t.paddle2 == s.paddle2.(position := s.paddle2.position.(y := t.paddle2.position.y))
    ensures OnScreen(t.paddle1, t.screen) && OnScreen(t.paddle2, t.screen)
    ensures t.paddle2.position.y == Clamp(s.ball.position.y, MinY(s.paddle2), MaxY(s.paddle2, s.screen))
    ensures var y := s.paddle1.position.y;
            var moved := if upHeld && !downHeld then y - dt
                         else if downHeld && !upHeld then y + dt
                         else y;
            t.paddle1.position.y == Clamp(moved, MinY(s.paddle1), MaxY(s.paddle1, s.screen))
  {
    var paddle2 := TrackBall(s.paddle2, s.ball);
    var paddle1 := MovePlayer(s.paddle1, dt, upHeld, downHeld);
    s.(paddle1 := ClampPaddle(paddle1, s.screen), paddle2 := ClampPaddle(paddle2, s.screen))
  }

  /** `update`: the seven phases in order, each reading what the earlier ones wrote. */
  function Step(s: State, dt: real, upHeld: bool, downHeld: bool): (t: State)
    requires Playable(s)
    // what the frame never touches
    ensures t.screen == s.screen
    ensures t.paddle1.rect == s.paddle1.rect && t.paddle2.rect == s.paddle2.rect
    ensures t.ball.rect == s.ball.rect
    ensures t.paddle1.position.x == s.paddle1.position.x && t.paddle2.position.x == s.paddle2.position.x
    ensures t.paddle1.velocity == s.paddle1.velocity && t.paddle2.velocity == s.paddle2.velocity
    // scores never fall, and rise by at most one in all
    ensures s.score1 <= t.score1 && s.score2 <= t.score2
    ensures t.score1 + t.score2 <= s.score1 + s.score2 + 1
    // the paddles end on the screen
    ensures Playable(t)
    ensures OnScreen(t.paddle1, t.screen) && OnScreen(t.paddle2, t.screen)
  {
    UpdatePaddles(UpdateBall(s, dt), dt, upHeld, downHeld)
  }

  /** The state `main` builds on an 800 by 600 window: paddles 25 wide and
      100 tall at either side, a 25 by 25 ball at the centre moving left and
      down, both scores 0. */
  function Initial(): (s: State)
    ensures Playable(s)
    ensures s.screen == Rect(0, 0, 800, 600)
    ensures s.score1 == 0 && s.score2 == 0
    ensures s.ball.position == Centre(s.screen)
    ensures s.ball.rect == Rect(-12, -12, 25, 25)
    ensures s.ball.velocity == FVec(-0.25, 0.25)
    ensures s.paddle1.rect == Rect(-12, -50, 25, 100) && s.paddle2.rect == Rect(-12, -50, 25, 100)
    ensures s.paddle1.position == FVec(25.0, 300.0) && s.paddle2.position == FVec(775.0, 300.0)
    ensures OnScreen(s.paddle1, s.screen) && OnScreen(s.paddle2, s.screen)
    ensures s.paddle1.velocity == Zero() && s.paddle2.velocity == Zero()
  {
    var w, h := 800, 600;
    State(
      RectObject(Rect(Half(-25), -50, 25, 100), FVec(25.0, Half(h) as real), Zero()),
      RectObject(Rect(Half(-25), -50, 25, 100), FVec((w - 25) as real, Half(h) as real), Zero()),
      RectObject(Rect(Half(-25), Half(-25), 25, 25), FVec(Half(w) as real, Half(h) as real), FVec(-0.25, 0.25)),
      Rect(0, 0, w, h),
      0, 0)
  }

  /** The mutable game state that `update` changes in place. */
  class GameState {
    var paddle1: RectObject
    var paddle2: RectObject
    var ball: RectObject
    var screen: Rect
    var score1: int
    var score2: int

    /** The fields as one value. */
    function Snapshot(): State
      reads this
    {
      State(paddle1, paddle2, ball, screen, score1, score2)
    }

    /** The state built in `main`. */
    constructor ()
      ensures Snapshot() == Initial()
    {
      var s := Initial();
      paddle1, paddle2, ball := s.paddle1, s.paddle2, s.ball;
      screen, score1, score2 := s.screen, s.score1, s.score2;
    }

    /** `update`: one frame of `dt` milliseconds with the given keys held.
        The sections run in order, each reading what the earlier ones wrote. */
    method Update(dt: real, upHeld: bool, downHeld: bool)
      requires Playable(Snapshot())
      modifies this
      ensures Snapshot() == Step(old(Snapshot()), dt, upHeld, downHeld)
    {
      MoveBallStep(dt);
      CollideWithPaddles();
      CollideWithWalls();
      CheckScore();
      assert Snapshot() == UpdateBall(old(Snapshot()), dt);
      FollowBall();
      MoveOnInput(dt, upHeld, downHeld);
      ClampPaddles();
    }

    /** Ball movement. */
    method MoveBallStep(dt: real)
      modifies `ball
      ensures ball == Advance(old(ball), dt)
    {
      ball := ball.(position := ball.position.(x := ball.position.x + ball.velocity.x * dt));
      ball := ball.(position := ball.position.(y := ball.position.y + ball.velocity.y * dt));
    }

    /** Ball collision with the paddles. */
    method CollideWithPaddles()
      modifies `ball
      ensures ball == BounceOffPaddles(old(ball), paddle1, paddle2)
    {
      if Intersects(WorldRect(ball), WorldRect(paddle1)) {
        ball := ball.(velocity := ball.velocity.(x := Abs(ball.velocity.x)));
      }
      if Intersects(WorldRect(ball), WorldRect(paddle2)) {
        ball := ball.(velocity := ball.velocity.(x := -Abs(ball.velocity.x)));
      }
    }

    /** Ball collision with the top and bottom of the screen. */
    method CollideWithWalls()
      modifies `ball
      ensures ball == BounceOffWalls(old(ball), screen)
    {
      if WorldRect(ball).y <= 0 {
        ball := ball.(velocity := ball.velocity.(y := Abs(ball.velocity.y)));
      }
      if WorldRect(ball).y + WorldRect(ball).h >= screen.h {
        ball := ball.(velocity := ball.velocity.(y := -Abs(ball.velocity.y)));
      }
    }

    /** The ball leaves the court: score. */
    method CheckScore()
      modifies `ball, `score1, `score2
      ensures Snapshot() == ScorePoint(old(Snapshot()))
    {
      if ball.position.x <= 0.0 {
        score2 := score2 + 1;
        ball := ball.(position := ball.position.(x := Half(screen.w) as real));
        ball := ball.(position := ball.position.(y := Half(screen.h) as real));
      }
      if ball.position.x >= screen.w as real {
        score1 := score1 + 1;
        ball := ball.(position := ball.position.(x := Half(screen.w) as real));
        ball := ball.(position := ball.position.(y := Half(screen.h) as real));
      }
    }

    /** The opponent ("AI") follows the ball. */
    method FollowBall()
      modifies `paddle2
      ensures paddle2 == TrackBall(old(paddle2), ball)
    {
      paddle2 := paddle2.(position := paddle2.position.(y := ball.position.y));
    }

    /** The player paddle moves on input. */
    method MoveOnInput(dt: real, upHeld: bool, downHeld: bool)
      modifies `paddle1
      ensures paddle1 == MovePlayer(old(paddle1), dt, upHeld, downHeld)
    {
      if upHeld {
        paddle1 := paddle1.(position := paddle1.position.(y := paddle1.position.y - 1.0 * dt));
      }
      if downHeld {
        paddle1 := paddle1.(position := paddle1.position.(y := paddle1.position.y + 1.0 * dt));
      }
    }

    /** Clamp both paddles' y positions. */
    method ClampPaddles()
      requires Playable(Snapshot())
      modifies `paddle1, `paddle2
      ensures paddle1 == ClampPaddle(old(paddle1), screen)
      ensures paddle2 == ClampPaddle(old(paddle2), screen)
    {
      paddle1 := paddle1.(position := paddle1.position.(y :=
                   Clamp(paddle1.position.y, MinY(paddle1), MaxY(paddle1, screen))));
      paddle2 := paddle2.(position := paddle2.position.(y :=
                   Clamp(paddle2.position.y, MinY(paddle2), MaxY(paddle2, screen))));
    }
  }
}
