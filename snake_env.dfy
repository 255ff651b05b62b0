/** The solo training environment `SnakeGameAI`: a class whose methods update
    heading, head, body, food, score and frame counter in place, specified by
    a pure step function on the abstract game state. */
module SnakeEnv {
  import opened Grid

  /** The abstract state of one solo game. */
  datatype Game = Game(
    direction: Direction,
    head: Point,
    snake: seq<Point>,
    score: int,
    food: Point,
    frameIteration: int)

  /** What `play_step` returns, together with the state it leaves behind. */
  datatype StepResult = StepResult(game: Game, reward: int, gameOver: bool, score: int)

  function NextHead(g: Game, action: seq<int>): Point
  {
    Advance(g.head, Turn(g.direction, action))
  }

  /** The body right after `snake.insert(0, head)`. */
  function Grown(g: Game, action: seq<int>): seq<Point>
  {
    [NextHead(g, action)] + g.snake
  }

  /** The terminal test of `play_step`: a collision of the new head, or a frame
      counter (already incremented) above 100 times the grown body length. */
  predicate Terminal(w: int, h: int, g: Game, action: seq<int>)
  {
    Collision(w, h, Grown(g, action), NextHead(g, action))
      || g.frameIteration + 1 > 100 * |Grown(g, action)|
  }

  predicate Eats(w: int, h: int, g: Game, action: seq<int>)
  {
    !Terminal(w, h, g, action) && NextHead(g, action) == g.food
  }

  /** The random draws suffice for the food placement the step may perform. */
  predicate StepReady(w: int, h: int, g: Game, action: seq<int>, draws: seq<Draw>)
  {
    ValidDraws(w, h, draws) &&
    (Eats(w, h, g, action) ==> HasFreeDraw(draws, Grown(g, action)))
  }

  /** One call of `play_step` on the abstract state. */
  function Step(w: int, h: int, g: Game, action: seq<int>, draws: seq<Draw>): (r: StepResult)
    requires StepReady(w, h, g, action, draws)
    ensures r.gameOver <==> Terminal(w, h, g, action)
    ensures r.reward == (if r.gameOver then -10 else if Eats(w, h, g, action) then 10 else 0)
    ensures r.score == r.game.score
    ensures r.game.score == g.score + (if r.reward == 10 then 1 else 0)
    ensures r.game.frameIteration == g.frameIteration + 1
    ensures r.game.head == NextHead(g, action)
    ensures |g.snake| > 0 ==> |r.game.snake| > 0 && r.game.snake[0] == r.game.head
  {
    var frame := g.frameIteration + 1;
    var d := Turn(g.direction, action);
    var hd := Advance(g.head, d);
    var body := [hd] + g.snake;
    if Collision(w, h, body, hd) || frame > 100 * |body| then
      StepResult(Game(d, hd, body, g.score, g.food, frame), -10, true, g.score)
    else if hd == g.food then
      StepResult(Game(d, hd, body, g.score + 1, FoodFrom(draws, body), frame), 10, false, g.score + 1)
    else
      StepResult(Game(d, hd, body[..|body| - 1], g.score, g.food, frame), 0, false, g.score)
  }

  /** What `reset` establishes, with the food drawn from `draws`. */
  function ResetGame(w: int, h: int, draws: seq<Draw>): (g: Game)
    requires HasFreeDraw(draws, SpawnBody(w, h))
    ensures WellFormed(g) && |g.snake| == 3 && g.head == Centre(w, h)
    ensures g.score == 0 && g.frameIteration == 0 && g.food !in g.snake
  {
    Game(Right, Centre(w, h), SpawnBody(w, h), 0, FoodFrom(draws, SpawnBody(w, h)), 0)
  }

  /** The state invariant of a game between steps. */
  predicate WellFormed(g: Game)
  {
    |g.snake| >= 3 && g.snake[0] == g.head
  }

  // ---------------------------------------------------------------------
  // Properties of one step
  // ---------------------------------------------------------------------

  /** Terminal case: the step is over exactly when the new head leaves the
      arena, lands on any segment of the old body (its tail included), or the
      frame counter exceeds 100 times the length counted after the insert;
      then the reward is -10, the score is kept and nothing is popped. */
  lemma TerminalStep(w: int, h: int, g: Game, action: seq<int>, draws: seq<Draw>)
    requires StepReady(w, h, g, action, draws)
    ensures var r := Step(w, h, g, action, draws);
      r.gameOver <==>
        (!InBounds(w, h, NextHead(g, action)) || NextHead(g, action) in g.snake
         || g.frameIteration + 1 > 100 * (|g.snake| + 1))
    ensures var r := Step(w, h, g, action, draws);
      r.gameOver ==>
        r.reward == -10 && r.score == g.score && r.game.score == g.score &&
        r.game.snake == [NextHead(g, action)] + g.snake &&
        |r.game.snake| == |g.snake| + 1 && r.game.food == g.food
  {
    var body := Grown(g, action);
    assert Rest(body) == g.snake;
  }

  /** Food case: a non-terminal step onto the food scores one point, rewards
      +10, keeps the grown body and places new food on the grid off the body. */
  lemma FoodStep(w: int, h: int, g: Game, action: seq<int>, draws: seq<Draw>)
    requires StepReady(w, h, g, action, draws)
    requires Eats(w, h, g, action)
    ensures var r := Step(w, h, g, action, draws);
      !r.gameOver && r.reward == 10 && r.score == g.score + 1 && r.game.score == g.score + 1 &&
      r.game.snake == [NextHead(g, action)] + g.snake && |r.game.snake| == |g.snake| + 1 &&
      OnGrid(w, h, r.game.food) && r.game.food !in r.game.snake
  {
    FoodPlacement(w, h, draws, Grown(g, action));
  }

  /** Ordinary case: the tail is popped, so the length is kept, the reward is
      0 and the score and the food are unchanged. */
  lemma OrdinaryStep(w: int, h: int, g: Game, action: seq<int>, draws: seq<Draw>)
    requires StepReady(w, h, g, action, draws)
    requires !Terminal(w, h, g, action) && !Eats(w, h, g, action)
    requires |g.snake| > 0
    ensures var r := Step(w, h, g, action, draws);
      !r.gameOver && r.reward == 0 && r.score == g.score && r.game.score == g.score &&
      r.game.food == g.food && |r.game.snake| == |g.snake| &&
      r.game.snake == [NextHead(g, action)] + g.snake[..|g.snake| - 1]
  {
    var body := Grown(g, action);
    assert body[..|body| - 1] == [NextHead(g, action)] + g.snake[..|g.snake| - 1];
  }

  /** Every step turns by the action, moves the head one cell, puts the new
      head first, counts one frame (eating does not reset the counter) and
      keeps the well-formedness invariant. */
  lemma StepShape(w: int, h: int, g: Game, action: seq<int>, draws: seq<Draw>)
    requires StepReady(w, h, g, action, draws)
    requires WellFormed(g)
    ensures var r := Step(w, h, g, action, draws);
      r.game.direction == Turn(g.direction, action) &&
      r.game.head == Advance(g.head, r.game.direction) &&
      r.game.snake[0] == r.game.head &&
      r.game.frameIteration == g.frameIteration + 1 &&
      r.score == r.game.score &&
      (r.reward == -10 || r.reward == 0 || r.reward == 10) &&
      WellFormed(r.game)
  {
  }

  /** A non-terminal step keeps a body whose segments are pairwise distinct
      and inside the arena. */
  lemma {:induction false} StepKeepsBodySimple(w: int, h: int, g: Game, action: seq<int>, draws: seq<Draw>)
    requires StepReady(w, h, g, action, draws)
    requires |g.snake| > 0
    requires forall i, j :: 0 <= i < j < |g.snake| ==> g.snake[i] != g.snake[j]
    requires forall i :: 0 <= i < |g.snake| ==> InBounds(w, h, g.snake[i])
    requires !Step(w, h, g, action, draws).gameOver
    ensures var s := Step(w, h, g, action, draws).game.snake;
      (forall i, j :: 0 <= i < j < |s| ==> s[i] != s[j]) &&
      (forall i :: 0 <= i < |s| ==> InBounds(w, h, s[i]))
  {
    var hd := NextHead(g, action);
    var body := Grown(g, action);
    TerminalStep(w, h, g, action, draws);
    assert hd !in g.snake && InBounds(w, h, hd);
    var s := Step(w, h, g, action, draws).game.snake;
    assert s == body || s == body[..|body| - 1];
    forall i, j | 0 <= i < j < |s|
      ensures s[i] != s[j]
    {
      assert s[i] == body[i] && s[j] == body[j];
      if i == 0 {
        assert body[j] == g.snake[j - 1];
      } else {
        assert body[i] == g.snake[i - 1] && body[j] == g.snake[j - 1];
      }
    }
    forall i | 0 <= i < |s|
      ensures InBounds(w, h, s[i])
    {
      assert s[i] == body[i];
      if i > 0 { assert body[i] == g.snake[i - 1]; }
    }
  }

  /** Moving into the cell the tail occupies is a collision, because the test
      runs before the tail is popped. */
  lemma TailCellIsDeadly(w: int, h: int, g: Game, action: seq<int>, draws: seq<Draw>)
    requires StepReady(w, h, g, action, draws)
    requires |g.snake| > 0 && NextHead(g, action) == g.snake[|g.snake| - 1]
    ensures Step(w, h, g, action, draws).gameOver
    ensures Step(w, h, g, action, draws).reward == -10
  {
    TerminalStep(w, h, g, action, draws);
  }

  /** The stall guard of a fresh three-segment game: the length after the
      insert is 4, so the step at frame 301 is not cut short by the guard,
      while the step at frame 401 is. */
  lemma StallBudgetAfterInsert(w: int, h: int, g: Game, action: seq<int>, draws: seq<Draw>)
    requires StepReady(w, h, g, action, draws)
    requires |g.snake| == 3
    requires !Collision(w, h, Grown(g, action), NextHead(g, action))
    ensures g.frameIteration == 300 ==> !Step(w, h, g, action, draws).gameOver
    ensures g.frameIteration == 400 ==> Step(w, h, g, action, draws).gameOver
  {
  }

  /** `reset` puts the head at the centre heading right, with the body the
      three horizontally contiguous cells ending two cells to the left, score
      and frame counter zero, and food on the grid off the body. */
  lemma ResetShape(w: int, h: int, draws: seq<Draw>)
    requires ValidDraws(w, h, draws) && HasFreeDraw(draws, SpawnBody(w, h))
    ensures var g := ResetGame(w, h, draws);
      g.direction == Right && g.head == Point(w / 2, h / 2) &&
      g.snake == [Point(w / 2, h / 2), Point(w / 2 - 20, h / 2), Point(w / 2 - 40, h / 2)] &&
      g.score == 0 && g.frameIteration == 0 &&
      OnGrid(w, h, g.food) && g.food !in g.snake && WellFormed(g)
  {
    FoodPlacement(w, h, draws, SpawnBody(w, h));
  }

  /** The eating scenario on the default 640x480 arena: from the spawn, with
      the food right ahead, going straight scores and grows the body to 4. */
  lemma EatAheadScenario(draws: seq<Draw>)
    requires ValidDraws(640, 480, draws)
    requires HasFreeDraw(draws, [Point(340, 240), Point(320, 240), Point(300, 240), Point(280, 240)])
    ensures var g := Game(Right, Point(320, 240), [Point(320, 240), Point(300, 240), Point(280, 240)], 0, Point(340, 240), 0);
      var r := Step(640, 480, g, [1, 0, 0], draws);
      r.game.head == Point(340, 240) && r.reward == 10 && r.score == 1 && |r.game.snake| == 4 && !r.gameOver
  {
    var g := Game(Right, Point(320, 240), [Point(320, 240), Point(300, 240), Point(280, 240)], 0, Point(340, 240), 0);
    assert Grown(g, [1, 0, 0]) == [Point(340, 240), Point(320, 240), Point(300, 240), Point(280, 240)];
  }

  // ---------------------------------------------------------------------
  // The environment object
  // ---------------------------------------------------------------------

  class SnakeGameAI {
    const w: int
    const h: int
    var direction: Direction
    var head: Point
    var snake: seq<Point>
    var score: int
    var food: Point
    var frameIteration: int

    ghost predicate Valid()
      reads this
    {
      Arena(w, h) && WellFormed(State())
    }

    function State(): Game
      reads this
    {
      Game(direction, head, snake, score, food, frameIteration)
    }

    /** The pure query `is_collision`; callers pass `head` for the default. */
    function IsCollision(pt: Point): (c: bool)
      reads this
      ensures c <==> !InBounds(w, h, pt) || exists i :: 1 <= i < |snake| && snake[i] == pt
    {
      CollisionIff(w, h, snake, pt);
      Collision(w, h, snake, pt)
    }

    constructor (w: int, h: int, draws: seq<Draw>)
      requires Arena(w, h) && ValidDraws(w, h, draws) && HasFreeDraw(draws, SpawnBody(w, h))
      ensures this.w == w && this.h == h
      ensures Valid() && State() == ResetGame(w, h, draws)
    {
      this.w := w;
      this.h := h;
      new;
      Reset(draws);
    }

    method Reset(draws: seq<Draw>)
      requires Arena(w, h) && ValidDraws(w, h, draws) && HasFreeDraw(draws, SpawnBody(w, h))
      modifies this
      ensures Valid() && State() == ResetGame(w, h, draws)
    {
      direction := Right;
      head := Point(w / 2, h / 2);
      snake := [head, Point(head.x - BLOCK_SIZE, head.y), Point(head.x - 2 * BLOCK_SIZE, head.y)];
      score := 0;
      PlaceFood(draws);
      frameIteration := 0;
    }

    /** The recursive retry of `_place_food` as a loop over the draws: every
        attempt overwrites `food`, and the loop stops at the first free cell. */
    method PlaceFood(draws: seq<Draw>)
      requires HasFreeDraw(draws, snake)
      modifies this`food
      ensures food == FoodFrom(draws, snake)
    {
      var i := 0;
      food := Cell(draws[0]);
      while food in snake
        invariant 0 <= i <= FirstFreeIndex(draws, snake)
        invariant food == Cell(draws[i])
        decreases FirstFreeIndex(draws, snake) - i
      {
        i := i + 1;
        food := Cell(draws[i]);
      }
      if i < FirstFreeIndex(draws, snake) {
        FirstFreeIndexIsFirst(draws, snake, i);
        assert false;
      }
    }

    /** `_move`: turn by the relative action, then advance the head one cell. */
    method Move(action: seq<int>)
      modifies this`direction, this`head
      ensures direction == Turn(old(direction), action)
      ensures head == Advance(old(head), direction)
    {
      var clockWise := [Right, Down, Left, Up];
      var idx: int := ClockIndex(direction);
      var newDir;
      if action == [1, 0, 0] {
        newDir := clockWise[idx];
      } else if action == [0, 1, 0] {
        newDir := clockWise[(idx + 1) % 4];
      } else {
        newDir := clockWise[(idx - 1) % 4];
      }
      direction := newDir;
      var x := head.x;
      var y := head.y;
      if direction == Right { x := x + BLOCK_SIZE; }
      else if direction == Left { x := x - BLOCK_SIZE; }
      else if direction == Down { y := y + BLOCK_SIZE; }
      else if direction == Up { y := y - BLOCK_SIZE; }
      head := Point(x, y);
    }

    method PlayStep(action: seq<int>, draws: seq<Draw>) returns (reward: int, gameOver: bool, scoreOut: int)
      requires Valid() && StepReady(w, h, State(), action, draws)
      modifies this
      ensures Valid()
      ensures StepResult(State(), reward, gameOver, scoreOut) == Step(w, h, old(State()), action, draws)
    {
      frameIteration := frameIteration + 1;
      Move(action);
      snake := [head] + snake;

      reward := 0;
      gameOver := false;
      if IsCollision(head) || frameIteration > 100 * |snake| {
        gameOver := true;
        reward := -10;
        scoreOut := score;
        return;
      }

      if head == food {
        score := score + 1;
        reward := 10;
        PlaceFood(draws);
      } else {
        snake := snake[..|snake| - 1];
      }
      scoreOut := score;
    }
  }
}
