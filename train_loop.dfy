/** One pass of the `train_ai` loop: observe, choose, step the solo game,
    store the experience, and on game over reset the game and do the
    end-of-game bookkeeping. The network's output and every random number
    are parameters. */
module TrainLoop {
  import opened Grid
  import opened SnakeEnv
  import opened SnakeVersus
  import opened AgentLogic

  /** `get_state`: the encoder applied to the solo game's own fields. */
  function GameState(w: int, h: int, g: Game): (state: seq<int>)
    ensures |state| == 11
  {
    CalculateState(w, h, g.head, g.snake, g.food, g.direction)
  }

  /** `get_versus_state`: the encoder applied to the AI player's fields,
      whose collision test is `is_collision_ai`, i.e. against its own body. */
  function VersusState(w: int, h: int, p: Player): (state: seq<int>)
    ensures |state| == 11
  {
    CalculateState(w, h, p.head, p.snake, p.food, p.direction)
  }

  /** Testing a cell other than the head against the body, or against the
      body with that cell pushed in front, gives the same answer. */
  lemma CollisionOfGrown(w: int, h: int, body: seq<Point>, pt: Point)
    requires |body| > 0 && pt != body[0]
    ensures Collision(w, h, [pt] + body, pt) == Collision(w, h, body, pt)
  {
    assert Rest([pt] + body) == body;
    assert body == [body[0]] + body[1..];
  }

  /** The danger flags of the solo state predict exactly the collision half of
      the next step's game-over test, for each of the three actions. */
  lemma SoloDangerPredictsCollision(w: int, h: int, g: Game)
    requires WellFormed(g)
    ensures GameState(w, h, g)[0] == Flag(Collision(w, h, Grown(g, [1, 0, 0]), NextHead(g, [1, 0, 0])))
    ensures GameState(w, h, g)[1] == Flag(Collision(w, h, Grown(g, [0, 1, 0]), NextHead(g, [0, 1, 0])))
    ensures GameState(w, h, g)[2] == Flag(Collision(w, h, Grown(g, [0, 0, 1]), NextHead(g, [0, 0, 1])))
  {
    DangerFlags(w, h, g.head, g.snake, g.food, g.direction);
    forall action | action in {[1, 0, 0], [0, 1, 0], [0, 0, 1]}
      ensures Collision(w, h, Grown(g, action), NextHead(g, action)) ==
        Collision(w, h, g.snake, Advance(g.head, Turn(g.direction, action)))
    {
      AdvanceInverse(g.head, Turn(g.direction, action), Turn(g.direction, action));
      CollisionOfGrown(w, h, g.snake, NextHead(g, action));
    }
  }

  /** Likewise in versus mode: the AI's danger flags say exactly whether the
      AI player dies this frame after the corresponding action. */
  lemma VersusDangerPredictsDeath(w: int, h: int, p: Player)
    requires PlayerWellFormed(p)
    ensures VersusState(w, h, p)[0] == Flag(Dies(w, h, p, Turn(p.direction, [1, 0, 0])))
    ensures VersusState(w, h, p)[1] == Flag(Dies(w, h, p, Turn(p.direction, [0, 1, 0])))
    ensures VersusState(w, h, p)[2] == Flag(Dies(w, h, p, Turn(p.direction, [0, 0, 1])))
  {
    DangerFlags(w, h, p.head, p.snake, p.food, p.direction);
    forall action | action in {[1, 0, 0], [0, 1, 0], [0, 0, 1]}
      ensures Dies(w, h, p, Turn(p.direction, action)) ==
        Collision(w, h, p.snake, Advance(p.head, Turn(p.direction, action)))
    {
      AdvanceInverse(p.head, Turn(p.direction, action), Turn(p.direction, action));
      CollisionOfGrown(w, h, p.snake, Moved(p, Turn(p.direction, action)));
    }
  }

  /** The network's choice is always one of the three moves. */
  ghost predicate PolicyInRange(policy: seq<int> -> int)
  {
    forall s :: 0 <= policy(s) <= 2
  }

  /** The one-hot action of one pass, chosen against the state observed. */
  function TickMove(trainingMode: bool, nGames: int, w: int, h: int, g: Game,
                    policy: seq<int> -> int, randomDraw: int, randomMove: int): seq<int>
    requires PolicyInRange(policy)
    requires 0 <= randomDraw <= 200 && 0 <= randomMove <= 2
  {
    OneHot(ChooseMove(trainingMode, nGames, randomDraw, randomMove, policy(GameState(w, h, g))))
  }

  /** How many entries the memory holds once this pass has stored its
      experience (only training mode stores). */
  function MemorySizeAfter(trainingMode: bool, n: int): int
  {
    if !trainingMode then n else if n >= MAX_MEMORY then MAX_MEMORY else n + 1
  }

  /** The part of a pass up to the experience store: observe, choose, step
      the game and, in training mode, remember the transition. */
  method Act(agent: Agent, game: SnakeGameAI, policy: seq<int> -> int, randomDraw: int, randomMove: int,
             foodDraws: seq<Draw>)
    returns (gameOver: bool, score: int)
    requires agent.Valid() && game.Valid()
    requires PolicyInRange(policy)
    requires 0 <= randomDraw <= 200 && 0 <= randomMove <= 2
    requires StepReady(game.w, game.h, game.State(),
      TickMove(agent.trainingMode, agent.nGames, game.w, game.h, game.State(), policy, randomDraw, randomMove), foodDraws)
    modifies agent`epsilon, agent`memory, game
    ensures agent.Valid() && game.Valid()
    ensures var stateOld := GameState(game.w, game.h, old(game.State()));
      var move := TickMove(agent.trainingMode, agent.nGames, game.w, game.h, old(game.State()), policy, randomDraw, randomMove);
      var r := Step(game.w, game.h, old(game.State()), move, foodDraws);
      game.State() == r.game && gameOver == r.gameOver && score == r.score &&
      agent.epsilon == (if agent.trainingMode then 80 - agent.nGames else 0) &&
      agent.memory == (if agent.trainingMode
        then Recent(old(agent.memory) + [Transition(stateOld, move, r.reward, GameState(game.w, game.h, r.game), r.gameOver)])
        else old(agent.memory))
  {
    var w, h := game.w, game.h;
    var stateOld := CalculateState(w, h, game.head, game.snake, game.food, game.direction);
    var finalMove := agent.GetAction(randomDraw, randomMove, policy(stateOld));
    var reward, done, scoreOut := game.PlayStep(finalMove, foodDraws);
    var stateNew := CalculateState(w, h, game.head, game.snake, game.food, game.direction);
    if agent.trainingMode {
      agent.Remember(Transition(stateOld, finalMove, reward, stateNew, done));
    }
    gameOver, score := done, scoreOut;
  }

  /** The `if done:` block: reset the game, count the game, train on a batch
      and decide the checkpoint save. */
  method EndGame(agent: Agent, game: SnakeGameAI, record: int, sessionGames: int, score: int,
                 resetDraws: seq<Draw>, picks: seq<int>)
    returns (newRecord: int, newSessionGames: int, saved: bool)
    requires Arena(game.w, game.h)
    requires ValidDraws(game.w, game.h, resetDraws) && HasFreeDraw(resetDraws, SpawnBody(game.w, game.h))
    requires agent.trainingMode && |agent.memory| > BATCH_SIZE ==> ValidSample(picks, |agent.memory|)
    modifies agent`nGames, game
    ensures game.Valid() && game.State() == ResetGame(game.w, game.h, resetDraws)
    ensures Progress(agent.nGames, newRecord, newSessionGames, saved) ==
      OnGameOver(agent.trainingMode, Progress(old(agent.nGames), record, sessionGames, false), score)
  {
    game.Reset(resetDraws);
    agent.nGames := agent.nGames + 1;
    newRecord, newSessionGames, saved := record, sessionGames + 1, false;
    if agent.trainingMode {
      var batch := agent.TrainLongMemory(picks);
      if score > newRecord {
        newRecord := score;
        saved := true;
      } else if agent.nGames % 10 == 0 {
        saved := true;
      }
    }
  }

  /** One iteration of the `train_ai` loop. `record` and `sessionGames` are
      the loop's local counters; `saved` says whether the checkpoint was
      written. */
  method TrainAiTick(agent: Agent, game: SnakeGameAI, record: int, sessionGames: int,
                     policy: seq<int> -> int, randomDraw: int, randomMove: int,
                     foodDraws: seq<Draw>, resetDraws: seq<Draw>, picks: seq<int>)
    returns (newRecord: int, newSessionGames: int, done: bool, saved: bool)
    requires agent.Valid() && game.Valid()
    requires PolicyInRange(policy)
    requires 0 <= randomDraw <= 200 && 0 <= randomMove <= 2
    requires StepReady(game.w, game.h, game.State(),
      TickMove(agent.trainingMode, agent.nGames, game.w, game.h, game.State(), policy, randomDraw, randomMove), foodDraws)
    requires ValidDraws(game.w, game.h, resetDraws) && HasFreeDraw(resetDraws, SpawnBody(game.w, game.h))
    requires agent.trainingMode && MemorySizeAfter(true, |agent.memory|) > BATCH_SIZE ==>
      ValidSample(picks, MemorySizeAfter(true, |agent.memory|))
    modifies agent, game
    ensures agent.Valid() && game.Valid()
    ensures var stateOld := GameState(game.w, game.h, old(game.State()));
      var move := TickMove(agent.trainingMode, old(agent.nGames), game.w, game.h, old(game.State()), policy, randomDraw, randomMove);
      var r := Step(game.w, game.h, old(game.State()), move, foodDraws);
      done == r.gameOver &&
      agent.epsilon == (if agent.trainingMode then 80 - old(agent.nGames) else 0) &&
      agent.memory == (if agent.trainingMode
        then Recent(old(agent.memory) + [Transition(stateOld, move, r.reward, GameState(game.w, game.h, r.game), r.gameOver)])
        else old(agent.memory)) &&
      agent.loadedRecord == old(agent.loadedRecord) &&
      (r.gameOver ==>
        game.State() == ResetGame(game.w, game.h, resetDraws) &&
        Progress(agent.nGames, newRecord, newSessionGames, saved) ==
          OnGameOver(agent.trainingMode, Progress(old(agent.nGames), record, sessionGames, false), r.score)) &&
      (!r.gameOver ==>
        game.State() == r.game && agent.nGames == old(agent.nGames) &&
        newRecord == record && newSessionGames == sessionGames && !saved)
  {
    var score;
    done, score := Act(agent, game, policy, randomDraw, randomMove, foodDraws);
    newRecord, newSessionGames, saved := record, sessionGames, false;
    if done {
      newRecord, newSessionGames, saved := EndGame(agent, game, record, sessionGames, score, resetDraws, picks);
    }
  }
}
