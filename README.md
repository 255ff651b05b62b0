# Snake reinforcement-learning game: verified model

This project models the game and bookkeeping logic of a Snake game played by a Deep-Q-learning agent.

- **The solo training environment `SnakeGameAI`.** A snake moves on a grid of 20-pixel cells. Each frame it takes a relative action (straight, right turn or left turn), moves its head one cell and grows at the head. It dies on a wall, on its own body, or when it runs out of its frame budget. Otherwise it eats the food or loses its tail.
- **The versus environment `SnakeGameVersus`.** A keyboard-steered snake and an AI-steered snake play on separate arenas of the same size. A player who dies respawns at the centre with score 0.
- **The agent's discrete logic.** This covers:
  - the 11-flag state encoder;
  - the bounded replay memory;
  - the batch rule of long-memory training;
  - the epsilon-greedy choice of a one-hot action;
  - one pass of the training loop, with its checkpoint-save decision.

Both environment classes and the agent are Dafny classes. Their methods update the fields in place. Each method is specified by a pure function on an abstract state:
- `SnakeGameAI.State()` is specified by `SnakeEnv.Step` and `SnakeEnv.ResetGame`;
- `SnakeGameVersus.Human()` and `SnakeGameVersus.Ai()` are specified by `SnakeVersus.PlayerStep`;
- the agent's memory is specified by `AgentLogic.Recent`.

The lemmas state the promised properties of those functions.

Randomness is passed in as data:
- `_place_food` gets a sequence of candidate draws (`Grid.Draw`, a column and a row in `randint`'s range). It settles on the first draw whose cell is off the body. The source retries by recursion until it hits a free cell, so the model requires that such a draw exists (`Grid.HasFreeDraw`). The placement loop is then bounded by that draw's index.
- `get_action`'s `randint(0, 200)` and `randint(0, 2)` are parameters.
- `random.sample` is a parameter: a sequence of distinct positions.
- The network is a function from state to an index in 0..2, standing for its argmax.
- Keyboard events in versus mode are a sequence of `Key` values per frame.

Modules:
- `Grid` (grid.dfy): headings, cells, the clockwise turn table, one-cell moves, the collision predicate, food placement and the spawn body.
- `SnakeEnv` (snake_env.dfy): the solo game, with `SnakeGameAI`.
- `SnakeVersus` (snake_versus.dfy): the versus game, with `SnakeGameVersus`.
- `AgentLogic` (agent.dfy): the state encoder, replay memory, batch rule, action choice, checkpoint decision, and the `Agent` class.
- `TrainLoop` (train_loop.dfy): one pass of `train_ai`, and how the state encoder relates to the environments' collision tests.

Behaviours of the code worth noting:
- **Stall guard.** The guard compares the frame counter with `100 * len(snake)` *after* the new head was inserted. A fresh three-segment game is therefore cut short at frame 401, not 301 (`SnakeEnv.StallBudgetAfterInsert`).
- **Exploration draw.** The draw is `randint(0, 200)`, which has 201 outcomes. A random move is taken exactly when the draw is below `80 - n_games` (`AgentLogic.ChooseMove`). The chance of a random move is therefore epsilon/201.
- **Reversal in versus mode.** Several arrow keys in one frame are applied one after another. Two keys in one frame can turn the human snake around onto its own neck (`SnakeVersus.TwoKeysReverse`).
- **Heading after a respawn.** The respawn keeps the heading, and the spawn body extends to the left of the head. A human player who died heading left dies again on the next frame unless UP or DOWN is pressed: RIGHT is refused as a reversal, and LEFT keeps the heading. The AI player in the same position dies again when its action is straight (`SnakeVersus.RespawnFacingLeftDiesAgain`).

## Model

| member | source | states |
|---|---|---|
| Grid.ClockIndex | snake_game_env.py:110-111 | the index found in `[RIGHT, DOWN, LEFT, UP]` holds the heading looked up |
| Grid.Turn | snake_game_env.py:110-122 | `[1,0,0]` keeps the heading, `[0,1,0]` gives the clockwise successor, any other list the counter-clockwise one; the new heading is never the opposite of the old |
| Grid.TurnRightThenLeft | snake_game_env.py:110-122 | a right turn then a left turn (and the reverse) restores the heading; four right turns make a full circle |
| Grid.Advance | snake_game_env.py:123-129 | the new head differs by exactly BLOCK_SIZE in one coordinate, in the heading's sense, and the other coordinate is unchanged |
| Grid.AdvanceInverse | snake_game_env.py:123-129 | moving back in the opposite heading restores the cell; different headings reach different cells; a move always changes the cell |
| Grid.Collision | snake_game_env.py:89-96 | a point outside the arena always collides; inside it, only a point on a body of at least two segments can collide; a body of one segment collides only through the walls |
| Grid.CollisionIff | snake_game_env.py:89-96 | a collision holds exactly when the point is outside `[0, w-20] x [0, h-20]` or equals some body segment at index 1 or later; the head segment is never counted |
| Grid.FirstFreeIndex | snake_game_env.py:54-59 | the draw placement settles on lies in the supplied draws and its cell is off the body |
| Grid.FirstFreeIndexIsFirst | snake_game_env.py:58-59 | every draw before that one lands on the body, so the retry rejects exactly those |
| Grid.DrawOnGrid | snake_game_env.py:55-56 | a draw in randint's range gives a grid-aligned cell inside the arena |
| Grid.FoodPlacement | snake_game_env.py:54-59 | the food placement settles on is grid-aligned, inside the arena and not on the body |
| Grid.SpawnBody | snake_game_env.py:45-48 | the spawn body has three segments and starts at the centre |
| SnakeEnv.Step | snake_game_env.py:61-87 | the step is over exactly when the terminal test holds; the reward is -10 then, +10 on eating and 0 otherwise; the score rises by one exactly on eating and is the one returned; one frame is counted; the new head is the turned move and comes first in the body |
| SnakeEnv.TerminalStep | snake_game_env.py:61-76 | a step is over exactly when the new head is out of bounds, on the old body (tail included) or the incremented frame counter exceeds 100 times the length after the insert; then reward -10, score kept, no pop (length + 1), food kept |
| SnakeEnv.FoodStep | snake_game_env.py:78-81 | a non-terminal step onto the food gives reward +10 and score + 1, keeps the grown body (length + 1), and places new food on the grid off the body |
| SnakeEnv.OrdinaryStep | snake_game_env.py:71-87 | otherwise the tail is popped: length kept, reward 0, not over, score and food unchanged |
| SnakeEnv.StepShape | snake_game_env.py:61-87 | every step turns by the action, moves one cell, puts the new head first, adds one frame (eating does not reset it), returns the game's score, gives a reward in {-10, 0, 10}, and keeps the body at three or more segments with the head first |
| SnakeEnv.StepKeepsBodySimple | snake_game_env.py:68-83 | a non-terminal step keeps the body's segments pairwise distinct and inside the arena |
| SnakeEnv.TailCellIsDeadly | snake_game_env.py:69-76 | moving into the cell the tail occupies ends the game, because the test runs before the pop |
| SnakeEnv.StallBudgetAfterInsert | snake_game_env.py:69-73 | for a three-segment snake without a collision, the step from frame 300 goes on and the step from frame 400 ends the game |
| SnakeEnv.ResetShape | snake_game_env.py:43-52 | after reset the heading is RIGHT, the body is `(w/2,h/2), (w/2-20,h/2), (w/2-40,h/2)` head first, score and frame counter are 0, and the food is on the grid off the body |
| SnakeEnv.EatAheadScenario | snake_game_env.py:78-81 | on 640x480 with food right ahead of the spawn, going straight rewards +10, scores 1 and grows the body to 4 |
| SnakeEnv.ResetGame | snake_game_env.py:43-52 | a reset game is well formed with three segments and the head at the centre, score and frame counter 0, and food off the body |
| SnakeEnv.SnakeGameAI.constructor | snake_game_env.py:35-41 | a new game has the given size and the reset state |
| SnakeEnv.SnakeGameAI.IsCollision | snake_game_env.py:89-96 | the query holds exactly when the point is outside the arena or equals a body segment at index 1 or later |
| SnakeEnv.SnakeGameAI.Reset | snake_game_env.py:43-52 | the fields hold `ResetGame` of the draws, and the invariant holds |
| SnakeEnv.SnakeGameAI.PlaceFood | snake_game_env.py:54-59 | the loop over draws sets the food to the first draw off the body; nothing else changes |
| SnakeEnv.SnakeGameAI.Move | snake_game_env.py:109-129 | the heading becomes the turned heading and the head moves one cell that way; nothing else changes |
| SnakeEnv.SnakeGameAI.PlayStep | snake_game_env.py:61-87 | the new fields and the returned reward, game-over flag and score are exactly `Step` of the old state, and the invariant is kept |
| SnakeVersus.HumanKey | snake_game_env.py:185-193 | an arrow key sets the requested heading exactly when it is not the opposite of the current one, and is otherwise ignored; other events change nothing; the result is never the opposite heading |
| SnakeVersus.HumanHeading | snake_game_env.py:181-193 | a frame without arrow keys keeps the heading, and a single key acts as `HumanKey` |
| SnakeVersus.HumanHeadingFrom | snake_game_env.py:181-193 | after a frame's key presses the heading is the old one or one of the requested headings; with at most one press it is never the opposite of the old |
| SnakeVersus.TwoKeysReverse | snake_game_env.py:185-207 | from RIGHT, the keys UP then LEFT in one frame end heading LEFT, and that move runs into the neck |
| SnakeVersus.PlayerStep | snake_game_env.py:195-232 | the player takes the heading of the frame; on death the score is 0 and the body is a three-segment one at the centre; otherwise the head is the moved one and the score rises by one exactly when it lands on the food |
| SnakeVersus.Fed | snake_game_env.py:198-225 | the head moves one cell in the heading and is inserted; on the food the score rises by one, the grown body is kept and the new food is off it; otherwise the tail is popped and score and food are kept |
| SnakeVersus.Respawned | snake_game_env.py:239-247 | a respawned player keeps the heading, has score 0, a well-formed three-segment body with the head at the centre, and food off that body |
| SnakeVersus.PlayerStepWellFormed | snake_game_env.py:195-232 | one player's frame keeps at least three segments with the head first |
| SnakeVersus.GameOverRespawns | snake_game_env.py:227-247 | on game over the player's score becomes 0, the body is the three spawn segments at the centre, the heading is kept and the new food is on the grid off the body |
| SnakeVersus.SurvivingMove | snake_game_env.py:199-225 | a surviving move goes one cell onto a free in-bounds cell; eating adds one point and one segment and places new food, otherwise the length, score and food are kept |
| SnakeVersus.RespawnFacingLeftDiesAgain | snake_game_env.py:239-247 | a human player respawned with heading LEFT dies on the next move after no key, LEFT, RIGHT or another key; the AI player does so on a straight action |
| SnakeVersus.SnakeGameVersus.IsCollisionAi | snake_game_env.py:171-177 | the query holds exactly when the point is outside the arena or equals a segment of the AI's body at index 1 or later |
| SnakeVersus.SnakeGameVersus.constructor | snake_game_env.py:133-141 | a new match has both players at the spawn state |
| SnakeVersus.SnakeGameVersus.Reset | snake_game_env.py:143-158 | both players head RIGHT from the spawn body with score 0 and their own food |
| SnakeVersus.SnakeGameVersus.PlaceFood | snake_game_env.py:160-169 | the chosen player's food becomes the first draw off that player's body; the other player's food is untouched |
| SnakeVersus.SnakeGameVersus.MoveHuman | snake_game_env.py:274-281 | the human head moves one cell in its heading |
| SnakeVersus.SnakeGameVersus.MoveAi | snake_game_env.py:283-303 | the AI heading is turned by the action and its head moves one cell that way |
| SnakeVersus.SnakeGameVersus.Respawn | snake_game_env.py:239-247 | the chosen player gets the spawn body at the centre and new food, keeping heading and score; the other player is unchanged |
| SnakeVersus.SnakeGameVersus.HandleKeys | snake_game_env.py:181-193 | the human heading becomes `HumanHeading` of the frame's keys |
| SnakeVersus.SnakeGameVersus.ResolveHuman | snake_game_env.py:204-214 | the human's game-over flag is the collision of the new head; the human eats or pops; the AI is unchanged |
| SnakeVersus.SnakeGameVersus.ResolveAi | snake_game_env.py:217-225 | the AI's game-over flag is `is_collision_ai` of the new head; the AI eats or pops; the human is unchanged |
| SnakeVersus.SnakeGameVersus.MovePlayers | snake_game_env.py:181-200 | both heads move and are inserted, the human after the key presses and the AI after its action |
| SnakeVersus.SnakeGameVersus.SettlePlayers | snake_game_env.py:202-232 | each player eats or pops, and a dead player's score becomes 0 before it respawns |
| SnakeVersus.SnakeGameVersus.PlayStep | snake_game_env.py:179-237 | each player's new state is `PlayerStep` of that player's own old state: the human with the heading from the keys, the AI with the turned heading; the returned scores are the new scores |
| AgentLogic.CalculateState | agent.py:44-82 | the state has 11 entries, all 0 or 1; entries 3..6 hold exactly one 1; the two x food flags and the two y food flags are never both 1, and both are 0 when the coordinates are equal |
| AgentLogic.HeadingRoundTrip | agent.py:50-76 | the heading can be read back from entries 3..6 |
| AgentLogic.DangerFlags | agent.py:45-74 | entries 0, 1 and 2 are the collision test of the cells that the moves `[1,0,0]`, `[0,1,0]` and `[0,0,1]` reach |
| AgentLogic.FoodFlags | agent.py:77-80 | each food flag is 1 exactly when its strict comparison of food and head holds |
| AgentLogic.Recent | agent.py:11-20 | a deque with maxlen 100 000 keeps all items up to that size, and exactly the last 100 000 beyond it |
| AgentLogic.RecentAppend | agent.py:84-85 | appending to the bounded memory is the bound applied to the unbounded sequence of appends |
| AgentLogic.RememberAllRecent | agent.py:84-85 | after any sequence of appends the memory is the most recent 100 000 items of everything appended, in order |
| AgentLogic.FreshMemoryAfterAppends | agent.py:84-85 | starting from an empty memory, the memory holds at most 100 000 items, the most recent ones, with the newest last |
| AgentLogic.Pick | agent.py:89 | the sample has one entry per drawn position: the memory entry at that position |
| AgentLogic.PickSubMultiset | agent.py:87-91 | entries drawn at distinct positions form a sub-multiset of the memory |
| AgentLogic.ChooseMove | agent.py:98-112 | the move is in 0..2; outside training, or once `n_games >= 80`, it is the argmax; in training with the draw below `80 - n_games` the move is the random move; a move that is not the argmax is the random move, taken only in that case |
| AgentLogic.OneHot | agent.py:104-112 | the action has length 3 with a 1 at the chosen index and 0 elsewhere |
| AgentLogic.OneHotTurns | agent.py:104-112 | the one-hot action of index 0, 1 or 2 makes the environment go straight, turn clockwise or turn counter-clockwise |
| AgentLogic.OnGameOver | agent.py:138-153 | a finished game is counted; the record never decreases; a save happens exactly in training mode, on a new record or on every 10th game; a higher training score becomes the record, and the record changes in no other way |
| AgentLogic.GamesOverRecord | agent.py:128-153 | over any run of games the counters grow by the number of games; in training the record becomes at least every score; outside training it never changes; it is always the old record or one of the scores |
| AgentLogic.TenthGameSaves | agent.py:151-153 | in training the 10th, 20th, … game is saved whatever its score |
| AgentLogic.Agent.constructor | agent.py:16-36 | the memory is empty and epsilon is 0; the game counter and record are the loaded ones only when a checkpoint was loaded in training mode, and 0 otherwise |
| AgentLogic.Agent.Remember | agent.py:84-85 | the memory becomes the bounded append of the transition, and the bound is kept |
| AgentLogic.Agent.TrainLongMemory | agent.py:87-91 | above 1000 entries the batch is 1000 entries taken from distinct sampled positions, a sub-multiset of the memory; otherwise the batch is the whole memory |
| AgentLogic.Agent.GetAction | agent.py:98-114 | epsilon is set to `80 - n_games` in training and to 0 otherwise, and the result is the one-hot form of `ChooseMove` |
| TrainLoop.GameState | agent.py:38-39 | the solo observation is the 11-entry encoder state of the game's own fields |
| TrainLoop.VersusState | agent.py:41-42 | the versus observation is the 11-entry encoder state of the AI player's fields |
| TrainLoop.SoloDangerPredictsCollision | agent.py:60-74 | in a well-formed game, each danger flag holds exactly when the corresponding action's step hits a wall or the body |
| TrainLoop.VersusDangerPredictsDeath | agent.py:55-74 | for the AI player, each danger flag holds exactly when the corresponding action kills it this frame |
| TrainLoop.Act | agent.py:129-136 | the game takes `Step` with the one-hot action chosen on the observed state; in training the memory gains that transition under the bound |
| TrainLoop.EndGame | agent.py:138-153 | the game is reset and the counters, record and save flag become `OnGameOver` of the old ones |
| TrainLoop.TrainAiTick | agent.py:128-153 | one loop pass: epsilon, memory and game as in `Act`; on game over the reset and the `OnGameOver` bookkeeping; otherwise every counter is unchanged and nothing is saved |

## Left out

- Graphics, windowing and timing are not modelled: `_update_ui`, fonts, `clock.tick`, and the QUIT event that ends the process.
- The menu program, `reset_data` and the console loop of `__main__` are not modelled. They are user-interface and file-system code.
- The neural network and its trainer are not modelled: `Linear_QNet`, `QTrainer.train_step` and `train_short_memory`. They are floating-point tensor code. The network appears only as an index in 0..2, and the batch handed to the trainer is returned but not used further.
- Checkpoint saving and loading are not modelled as file I/O. Loading appears as the constructor's `loaded`, `oldGames` and `oldRecord` parameters. Saving appears as the `saved` flag.
- Plotting and the float mean score in `train_ai` are not modelled.
- `play_versus` is not modelled as a loop. Its observation `get_versus_state` is modelled as `TrainLoop.VersusState`, and its step as `SnakeGameVersus.PlayStep`.
- The loops of `train_ai` and `play_versus` run forever. Each is modelled as one pass, not as an unbounded loop.
- Coordinates are integers, and the arena must have even width and height (`Grid.Arena`). The source computes the centre with float division `w / 2`. The default 640x480 and any even size give integer centres.
- The model requires `w, h >= 20`. For smaller sizes `randint` gets an empty range and raises an error.
- `_place_food` retries by calling itself. After about a thousand rejected draws in a row, Python's recursion limit raises `RecursionError`, nothing catches it, and the program ends. The model does not bound the number of retries: it places the food on the first free draw however late it comes, and requires that one exists (`HasFreeDraw`). It therefore does not capture that crash, nor the case in which no free draw ever comes.
- Grid.SpawnBody: its own contract states only the length and the head. The full three cells are stated by `SnakeEnv.ResetShape`, and by the class `Reset` and `Respawn` methods.
- The model does not prove that a snake stays shorter than the number of grid cells.
- Python's aliasing of `self.head` with `self.snake[0]` is not modelled. This is harmless, because `Point` is an immutable tuple.
