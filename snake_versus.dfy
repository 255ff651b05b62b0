/** The versus environment `SnakeGameVersus`: a human-steered snake and an
    AI-steered snake on two arenas of the same size, each with its own body,
    food and score, updated in place by one `play_step` per frame. */
module SnakeVersus {
  import opened Grid

  /** The keyboard events one frame delivers; any other event is `OtherKey`. */
  datatype Key = LeftKey | RightKey | UpKey | DownKey | OtherKey

  /** The abstract state of one player (the suffixed fields of one side). */
  datatype Player = Player(direction: Direction, head: Point, snake: seq<Point>, score: int, food: Point)

  /** The heading a key asks for, if any. */
  function Requested(k: Key): Direction
    requires k != OtherKey
  {
    match k
    case LeftKey => Left
    case RightKey => Right
    case UpKey => Up
    case DownKey => Down
  }

  /** One key press: an arrow key sets the human heading unless it asks for
      the exact opposite of the current heading; other events change nothing. */
  function HumanKey(d: Direction, k: Key): (nd: Direction)
    ensures nd != Opposite(d)
    ensures k == OtherKey ==> nd == d
    ensures k != OtherKey ==> (nd == Requested(k) <==> Requested(k) != Opposite(d))
    ensures k != OtherKey && nd != Requested(k) ==> nd == d
  {
    match k
    case LeftKey => if d != Right then Left else d
    case RightKey => if d != Left then Right else d
    case UpKey => if d != Down then Up else d
    case DownKey => if d != Up then Down else d
    case OtherKey => d
  }

  /** The heading after all the key presses of one frame, taken in order. */
  function HumanHeading(d: Direction, keys: seq<Key>): (nd: Direction)
    ensures (forall i :: 0 <= i < |keys| ==> keys[i] == OtherKey) ==> nd == d
    ensures |keys| == 1 ==> nd == HumanKey(d, keys[0])
    decreases |keys|
  {
    if keys == [] then d else HumanHeading(HumanKey(d, keys[0]), keys[1..])
  }

  /** Each frame's heading is either the old one or one of the requested
      headings; with at most one key press in a frame it is never the
      opposite of the old heading. */
  lemma {:induction false} HumanHeadingFrom(d: Direction, keys: seq<Key>)
    ensures var nd := HumanHeading(d, keys);
      nd == d || exists i :: 0 <= i < |keys| && keys[i] != OtherKey && nd == Requested(keys[i])
    ensures |keys| <= 1 ==> HumanHeading(d, keys) != Opposite(d)
    decreases |keys|
  {
    if keys != [] {
      var d1 := HumanKey(d, keys[0]);
      HumanHeadingFrom(d1, keys[1..]);
      var nd := HumanHeading(d, keys);
      if nd != d1 {
        var i :| 0 <= i < |keys[1..]| && keys[1..][i] != OtherKey && nd == Requested(keys[1..][i]);
        assert keys[i + 1] == keys[1..][i];
      } else if d1 != d {
        assert keys[0] != OtherKey && nd == Requested(keys[0]);
      }
      if |keys| == 1 {
        assert keys[1..] == [];
      }
    }
  }

  /** Two arrow keys in one frame can reverse the snake: from RIGHT, UP then
      LEFT ends heading LEFT, and the head then moves onto the neck. */
  lemma TwoKeysReverse(w: int, h: int, p: Player)
    requires p.direction == Right && |p.snake| >= 2 && p.snake[0] == p.head
    requires p.snake[1] == Advance(p.head, Left)
    ensures HumanHeading(Right, [UpKey, LeftKey]) == Opposite(Right)
    ensures Collision(w, h, [Advance(p.head, Left)] + p.snake, Advance(p.head, Left))
  {
    assert HumanHeading(Right, [UpKey, LeftKey]) == HumanHeading(Up, [LeftKey]);
    assert ([Advance(p.head, Left)] + p.snake)[2] == p.snake[1];
    CollisionIff(w, h, [Advance(p.head, Left)] + p.snake, Advance(p.head, Left));
  }

  /** `_respawn` on the abstract state: score zeroed by the caller, body back
      to the three spawn segments, new food; the heading is left as it was. */
  function Respawned(w: int, h: int, p: Player, draws: seq<Draw>): (q: Player)
    requires HasFreeDraw(draws, SpawnBody(w, h))
    ensures q.direction == p.direction && q.score == 0
    ensures PlayerWellFormed(q) && |q.snake| == 3 && q.head == Centre(w, h) && q.food !in q.snake
  {
    Player(p.direction, Centre(w, h), SpawnBody(w, h), 0, FoodFrom(draws, SpawnBody(w, h)))
  }

  function Moved(p: Player, d: Direction): Point
  {
    Advance(p.head, d)
  }

  predicate Dies(w: int, h: int, p: Player, d: Direction)
  {
    Collision(w, h, [Moved(p, d)] + p.snake, Moved(p, d))
  }

  /** The draws suffice for the placements one player's frame may perform:
      one on eating and one on respawning. */
  predicate PlayerReady(w: int, h: int, p: Player, d: Direction, eatDraws: seq<Draw>, respawnDraws: seq<Draw>)
  {
    ValidDraws(w, h, eatDraws) && ValidDraws(w, h, respawnDraws) &&
    (Moved(p, d) == p.food ==> HasFreeDraw(eatDraws, [Moved(p, d)] + p.snake)) &&
    (Dies(w, h, p, d) ==> HasFreeDraw(respawnDraws, SpawnBody(w, h)))
  }

  /** One player's part of `play_step`, after its heading `d` is known: move,
      insert, test for game over, eat or pop, and respawn on game over. There is
      no stall guard in versus mode, and food is eaten even on the fatal move. */
  function PlayerStep(w: int, h: int, p: Player, d: Direction, eatDraws: seq<Draw>, respawnDraws: seq<Draw>): (q: Player)
    requires PlayerReady(w, h, p, d, eatDraws, respawnDraws)
    ensures q.direction == d
    ensures Dies(w, h, p, d) ==> q.score == 0 && q.head == Centre(w, h) && |q.snake| == 3
    ensures !Dies(w, h, p, d) ==> q.head == Moved(p, d) && q.score == p.score + (if Moved(p, d) == p.food then 1 else 0)
  {
    var fed := Fed(p, d, eatDraws);
    if Dies(w, h, p, d) then Respawned(w, h, fed, respawnDraws) else fed
  }

  /** The player after moving, inserting the new head, and then either eating
      (score and new food) or popping the tail. */
  function Fed(p: Player, d: Direction, eatDraws: seq<Draw>): (q: Player)
    requires Moved(p, d) == p.food ==> HasFreeDraw(eatDraws, [Moved(p, d)] + p.snake)
    ensures q.direction == d && q.head == Moved(p, d)
    ensures Moved(p, d) == p.food ==>
      q.score == p.score + 1 && q.snake == [q.head] + p.snake && q.food !in q.snake
    ensures Moved(p, d) != p.food ==>
      q.score == p.score && q.food == p.food && q.snake == ([q.head] + p.snake)[..|p.snake|]
  {
    var hd := Advance(p.head, d);
    var body := [hd] + p.snake;
    if hd == p.food then Player(d, hd, body, p.score + 1, FoodFrom(eatDraws, body))
    else Player(d, hd, body[..|body| - 1], p.score, p.food)
  }

  predicate PlayerWellFormed(p: Player)
  {
    |p.snake| >= 3 && p.snake[0] == p.head
  }

  /** A frame keeps a player well formed: the spawn body or the grown (and
      possibly popped) body still has at least three segments, head first. */
  lemma PlayerStepWellFormed(w: int, h: int, p: Player, d: Direction, eatDraws: seq<Draw>, respawnDraws: seq<Draw>)
    requires PlayerReady(w, h, p, d, eatDraws, respawnDraws)
    requires PlayerWellFormed(p)
    ensures PlayerWellFormed(PlayerStep(w, h, p, d, eatDraws, respawnDraws))
  {
  }

  /** Game over: the player's score becomes 0 and the body is the three spawn
      segments at the centre, with fresh food off it; the heading is kept. */
  lemma GameOverRespawns(w: int, h: int, p: Player, d: Direction, eatDraws: seq<Draw>, respawnDraws: seq<Draw>)
    requires PlayerReady(w, h, p, d, eatDraws, respawnDraws)
    requires Dies(w, h, p, d)
    ensures var q := PlayerStep(w, h, p, d, eatDraws, respawnDraws);
      q.score == 0 && q.snake == SpawnBody(w, h) && q.head == Centre(w, h) &&
      q.direction == d && q.food !in q.snake && OnGrid(w, h, q.food)
  {
    FoodPlacement(w, h, respawnDraws, SpawnBody(w, h));
  }

  /** A surviving move behaves as in the solo game: eating scores one point and
      grows the body by one, otherwise the tail is popped and the length kept. */
  lemma SurvivingMove(w: int, h: int, p: Player, d: Direction, eatDraws: seq<Draw>, respawnDraws: seq<Draw>)
    requires PlayerReady(w, h, p, d, eatDraws, respawnDraws)
    requires PlayerWellFormed(p) && !Dies(w, h, p, d)
    ensures var q := PlayerStep(w, h, p, d, eatDraws, respawnDraws);
      q.direction == d && q.head == Advance(p.head, d) && PlayerWellFormed(q) &&
      InBounds(w, h, q.head) && q.head !in p.snake &&
      (Moved(p, d) == p.food ==>
         q.score == p.score + 1 && |q.snake| == |p.snake| + 1 && q.food !in q.snake && OnGrid(w, h, q.food)) &&
      (Moved(p, d) != p.food ==> q.score == p.score && |q.snake| == |p.snake| && q.food == p.food)
  {
    var body := [Moved(p, d)] + p.snake;
    assert Rest(body) == p.snake;
    if Moved(p, d) == p.food {
      FoodPlacement(w, h, eatDraws, body);
    }
  }

  /** The heading kept through a respawn can kill the new body at once: a
      human player who died heading LEFT and presses no key, LEFT, RIGHT (the
      reversal is refused) or any other key moves onto the neck; the AI
      player does so when its action is straight. */
  lemma RespawnFacingLeftDiesAgain(w: int, h: int, p: Player, draws: seq<Draw>)
    requires HasFreeDraw(draws, SpawnBody(w, h))
    requires p.direction == Left
    ensures var q := Respawned(w, h, p, draws);
      Dies(w, h, q, HumanHeading(q.direction, [])) &&
      Dies(w, h, q, HumanHeading(q.direction, [LeftKey])) &&
      Dies(w, h, q, HumanHeading(q.direction, [RightKey])) &&
      Dies(w, h, q, HumanHeading(q.direction, [OtherKey])) &&
      Dies(w, h, q, Turn(q.direction, [1, 0, 0]))
  {
    var q := Respawned(w, h, p, draws);
    var body := [Moved(q, Left)] + q.snake;
    assert body[2] == Moved(q, Left);
    CollisionIff(w, h, body, Moved(q, Left));
    assert HumanHeading(Left, [RightKey]) == Left;
  }

  class SnakeGameVersus {
    const w: int
    const h: int
    // player 1, steered by the human
    var direction1: Direction
    var head1: Point
    var snake1: seq<Point>
    var score1: int
    var food1: Point
    // player 2, steered by the agent
    var direction2: Direction
    var head2: Point
    var snake2: seq<Point>
    var score2: int
    var food2: Point

    ghost predicate Valid()
      reads this
    {
      Arena(w, h) && PlayerWellFormed(Human()) && PlayerWellFormed(Ai())
    }

    function Human(): Player
      reads this
    {
      Player(direction1, head1, snake1, score1, food1)
    }

    function Ai(): Player
      reads this
    {
      Player(direction2, head2, snake2, score2, food2)
    }

    /** The pure query `is_collision_ai`; callers pass `head2` for the default. */
    function IsCollisionAi(pt: Point): (c: bool)
      reads this
      ensures c <==> !InBounds(w, h, pt) || exists i :: 1 <= i < |snake2| && snake2[i] == pt
    {
      CollisionIff(w, h, snake2, pt);
      Collision(w, h, snake2, pt)
    }

    constructor (w: int, h: int, draws1: seq<Draw>, draws2: seq<Draw>)
      requires Arena(w, h)
      requires HasFreeDraw(draws1, SpawnBody(w, h)) && HasFreeDraw(draws2, SpawnBody(w, h))
      ensures this.w == w && this.h == h && Valid()
      ensures Human() == Player(Right, Centre(w, h), SpawnBody(w, h), 0, FoodFrom(draws1, SpawnBody(w, h)))
      ensures Ai() == Player(Right, Centre(w, h), SpawnBody(w, h), 0, FoodFrom(draws2, SpawnBody(w, h)))
    {
      this.w := w;
      this.h := h;
      new;
      Reset(draws1, draws2);
    }

    method Reset(draws1: seq<Draw>, draws2: seq<Draw>)
      requires Arena(w, h)
      requires HasFreeDraw(draws1, SpawnBody(w, h)) && HasFreeDraw(draws2, SpawnBody(w, h))
      modifies this
      ensures Valid()
      ensures Human() == Player(Right, Centre(w, h), SpawnBody(w, h), 0, FoodFrom(draws1, SpawnBody(w, h)))
      ensures Ai() == Player(Right, Centre(w, h), SpawnBody(w, h), 0, FoodFrom(draws2, SpawnBody(w, h)))
    {
      direction1 := Right;
      head1 := Point(w / 2, h / 2);
      snake1 := [head1, Point(head1.x - BLOCK_SIZE, head1.y), Point(head1.x - 2 * BLOCK_SIZE, head1.y)];
      score1 := 0;
      assert snake1 == SpawnBody(w, h);
      PlaceFood(1, draws1);

      direction2 := Right;
      head2 := Point(w / 2, h / 2);
      snake2 := [head2, Point(head2.x - BLOCK_SIZE, head2.y), Point(head2.x - 2 * BLOCK_SIZE, head2.y)];
      score2 := 0;
      assert snake2 == SpawnBody(w, h);
      PlaceFood(2, draws2);
    }

    /** `_place_food(player_id)`: retry until the drawn cell is off that
        player's body, then store it; any id other than 1 means player 2. */
    method PlaceFood(playerId: int, draws: seq<Draw>)
      requires playerId == 1 ==> HasFreeDraw(draws, snake1)
      requires playerId != 1 ==> HasFreeDraw(draws, snake2)
      modifies this`food1, this`food2
      ensures playerId == 1 ==> food1 == FoodFrom(draws, snake1) && food2 == old(food2)
      ensures playerId != 1 ==> food2 == FoodFrom(draws, snake2) && food1 == old(food1)
    {
      var body := if playerId == 1 then snake1 else snake2;
      var i := 0;
      var food := Cell(draws[0]);
      while food in body
        invariant 0 <= i <= FirstFreeIndex(draws, body)
        invariant food == Cell(draws[i])
        decreases FirstFreeIndex(draws, body) - i
      {
        i := i + 1;
        food := Cell(draws[i]);
      }
      if i < FirstFreeIndex(draws, body) {
        FirstFreeIndexIsFirst(draws, body, i);
        assert false;
      }
      if playerId == 1 {
        food1 := food;
      } else {
        food2 := food;
      }
    }

    method MoveHuman()
      modifies this`head1
      ensures head1 == Advance(old(head1), direction1)
    {
      var x := head1.x;
      var y := head1.y;
      if direction1 == Right { x := x + BLOCK_SIZE; }
      else if direction1 == Left { x := x - BLOCK_SIZE; }
      else if direction1 == Down { y := y + BLOCK_SIZE; }
      else if direction1 == Up { y := y - BLOCK_SIZE; }
      head1 := Point(x, y);
    }

    method MoveAi(action: seq<int>)
      modifies this`direction2, this`head2
      ensures direction2 == Turn(old(direction2), action)
      ensures head2 == Advance(old(head2), direction2)
    {
      var clockWise := [Right, Down, Left, Up];
      var idx: int := ClockIndex(direction2);
      var newDir;
      if action == [1, 0, 0] {
        newDir := clockWise[idx];
      } else if action == [0, 1, 0] {
        newDir := clockWise[(idx + 1) % 4];
      } else {
        newDir := clockWise[(idx - 1) % 4];
      }
      direction2 := newDir;
      var x := head2.x;
      var y := head2.y;
      if direction2 == Right { x := x + BLOCK_SIZE; }
      else if direction2 == Left { x := x - BLOCK_SIZE; }
      else if direction2 == Down { y := y + BLOCK_SIZE; }
      else if direction2 == Up { y := y - BLOCK_SIZE; }
      head2 := Point(x, y);
    }

    /** `_respawn(player_id)`: the body back to the spawn cells and new food;
        heading and score are left to the caller. */
    method Respawn(playerId: int, draws: seq<Draw>)
      requires HasFreeDraw(draws, SpawnBody(w, h))
      modifies this`head1, this`snake1, this`head2, this`snake2, this`food1, this`food2
      ensures playerId == 1 ==>
        Human() == Respawned(w, h, old(Human()), draws).(score := score1) && Ai() == old(Ai())
      ensures playerId != 1 ==>
        Ai() == Respawned(w, h, old(Ai()), draws).(score := score2) && Human() == old(Human())
    {
      if playerId == 1 {
        head1 := Point(w / 2, h / 2);
        snake1 := [head1, Point(head1.x - 20, head1.y), Point(head1.x - 40, head1.y)];
        assert snake1 == SpawnBody(w, h);
        PlaceFood(1, draws);
      } else {
        head2 := Point(w / 2, h / 2);
        snake2 := [head2, Point(head2.x - 20, head2.y), Point(head2.x - 40, head2.y)];
        assert snake2 == SpawnBody(w, h);
        PlaceFood(2, draws);
      }
    }

    /** The key-press part of the event loop: each arrow key sets the human
        heading unless it asks for the opposite of the current one. */
    method HandleKeys(keys: seq<Key>)
      modifies this`direction1
      ensures direction1 == HumanHeading(old(direction1), keys)
    {
      var i := 0;
      while i < |keys|
        invariant 0 <= i <= |keys|
        invariant HumanHeading(direction1, keys[i..]) == HumanHeading(old(direction1), keys)
      {
        var k := keys[i];
        if k == LeftKey && direction1 != Right {
          direction1 := Left;
        } else if k == RightKey && direction1 != Left {
          direction1 := Right;
        } else if k == UpKey && direction1 != Down {
          direction1 := Up;
        } else if k == DownKey && direction1 != Up {
          direction1 := Down;
        }
        assert keys[i..][1..] == keys[i + 1..];
        i := i + 1;
      }
      assert keys[i..] == [];
    }

    /** The human's game-over test on the grown body, then eating or popping. */
    method ResolveHuman(ghost p: Player, ghost d: Direction, eat: seq<Draw>) returns (gameOver: bool)
      requires Human() == p.(direction := d, head := Moved(p, d), snake := [Moved(p, d)] + p.snake)
      requires Moved(p, d) == p.food ==> HasFreeDraw(eat, [Moved(p, d)] + p.snake)
      modifies this`snake1, this`score1, this`food1, this`food2
      ensures gameOver == Dies(w, h, p, d)
      ensures Human() == Fed(p, d, eat) && Ai() == old(Ai())
    {
      gameOver := false;
      if head1.x > w - BLOCK_SIZE || head1.x < 0 || head1.y > h - BLOCK_SIZE || head1.y < 0 || head1 in snake1[1..] {
        gameOver := true;
      }
      if head1 == food1 {
        score1 := score1 + 1;
        PlaceFood(1, eat);
      } else {
        snake1 := snake1[..|snake1| - 1];
      }
    }

    /** The AI's game-over test (`is_collision_ai` at the head), then eating or popping. */
    method ResolveAi(ghost p: Player, ghost d: Direction, eat: seq<Draw>) returns (gameOver: bool)
      requires Ai() == p.(direction := d, head := Moved(p, d), snake := [Moved(p, d)] + p.snake)
      requires Moved(p, d) == p.food ==> HasFreeDraw(eat, [Moved(p, d)] + p.snake)
      modifies this`snake2, this`score2, this`food1, this`food2
      ensures gameOver == Dies(w, h, p, d)
      ensures Ai() == Fed(p, d, eat) && Human() == old(Human())
    {
      gameOver := false;
      if IsCollisionAi(head2) {
        gameOver := true;
      }
      if head2 == food2 {
        score2 := score2 + 1;
        PlaceFood(2, eat);
      } else {
        snake2 := snake2[..|snake2| - 1];
      }
    }

    /** Steps 1 and 2 of a frame: key presses, both moves, both inserts. */
    method MovePlayers(keys: seq<Key>, actionAi: seq<int>)
      modifies this`direction1, this`head1, this`snake1, this`direction2, this`head2, this`snake2
      ensures var d1 := HumanHeading(old(direction1), keys);
        Human() == old(Human()).(direction := d1, head := Moved(old(Human()), d1), snake := [Moved(old(Human()), d1)] + old(snake1))
      ensures var d2 := Turn(old(direction2), actionAi);
        Ai() == old(Ai()).(direction := d2, head := Moved(old(Ai()), d2), snake := [Moved(old(Ai()), d2)] + old(snake2))
    {
      // 1. user input
      HandleKeys(keys);
      // 2. move
      MoveHuman();
      MoveAi(actionAi);
      snake1 := [head1] + snake1;
      snake2 := [head2] + snake2;
    }

    /** Step 3 of a frame: game over and food for each player, then the
        respawns; `p1`, `p2`, `d1`, `d2` are the states and headings before
        the moves. */
    method SettlePlayers(ghost p1: Player, ghost d1: Direction, ghost p2: Player, ghost d2: Direction,
                         eat1: seq<Draw>, respawn1: seq<Draw>, eat2: seq<Draw>, respawn2: seq<Draw>)
      requires Human() == p1.(direction := d1, head := Moved(p1, d1), snake := [Moved(p1, d1)] + p1.snake)
      requires Ai() == p2.(direction := d2, head := Moved(p2, d2), snake := [Moved(p2, d2)] + p2.snake)
      requires PlayerReady(w, h, p1, d1, eat1, respawn1) && PlayerReady(w, h, p2, d2, eat2, respawn2)
      modifies this
      ensures Human() == PlayerStep(w, h, p1, d1, eat1, respawn1)
      ensures Ai() == PlayerStep(w, h, p2, d2, eat2, respawn2)
    {
      var gameOver1 := ResolveHuman(p1, d1, eat1);
      var gameOver2 := ResolveAi(p2, d2, eat2);

      if gameOver1 {
        score1 := 0;
        Respawn(1, respawn1);
      }
      if gameOver2 {
        score2 := 0;
        Respawn(2, respawn2);
      }
    }

    /** One frame: apply the key presses, move both snakes, then run each
        player's game-over, food and respawn rules on its own state only. */
    method PlayStep(keys: seq<Key>, actionAi: seq<int>,
                    eat1: seq<Draw>, respawn1: seq<Draw>, eat2: seq<Draw>, respawn2: seq<Draw>)
      returns (scoreHuman: int, scoreAi: int)
      requires Valid()
      requires PlayerReady(w, h, Human(), HumanHeading(direction1, keys), eat1, respawn1)
      requires PlayerReady(w, h, Ai(), Turn(direction2, actionAi), eat2, respawn2)
      modifies this
      ensures Valid()
      ensures Human() == PlayerStep(w, h, old(Human()), HumanHeading(old(direction1), keys), eat1, respawn1)
      ensures Ai() == PlayerStep(w, h, old(Ai()), Turn(old(direction2), actionAi), eat2, respawn2)
      ensures scoreHuman == score1 && scoreAi == score2
    {
      ghost var p1, p2 := Human(), Ai();
      ghost var d1, d2 := HumanHeading(direction1, keys), Turn(direction2, actionAi);
      MovePlayers(keys, actionAi);
      SettlePlayers(p1, d1, p2, d2, eat1, respawn1, eat2, respawn2);
      PlayerStepWellFormed(w, h, p1, d1, eat1, respawn1);
      PlayerStepWellFormed(w, h, p2, d2, eat2, respawn2);
      scoreHuman, scoreAi := score1, score2;
    }
  }
}
