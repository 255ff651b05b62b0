/** The agent's discrete bookkeeping: the 11-flag state encoder, the bounded
    replay memory, the batch rule of long-memory training, the epsilon gate of
    action selection and the checkpoint decision after each finished game.
    The network is reduced to the index its argmax picks. */
module AgentLogic {
  import opened Grid

  const MAX_MEMORY: int := 100000
  const BATCH_SIZE: int := 1000

  // ---------------------------------------------------------------------
  // State encoder
  // ---------------------------------------------------------------------

  /** numpy's `dtype=int` conversion of a flag. */
  function Flag(b: bool): int
  {
    if b then 1 else 0
  }

  /** `_calculate_state`: danger straight, right and left; the heading as
      left, right, up, down; food left of, right of, above and below the
      head. `snake` is the body the collision check consults. */
  function CalculateState(w: int, h: int, head: Point, snake: seq<Point>, food: Point, direction: Direction): (state: seq<int>)
    ensures |state| == 11
    ensures forall i :: 0 <= i < |state| ==> state[i] == 0 || state[i] == 1
    ensures state[3] + state[4] + state[5] + state[6] == 1
    ensures state[7] + state[8] <= 1 && state[9] + state[10] <= 1
    ensures food.x == head.x ==> state[7] == 0 && state[8] == 0
    ensures food.y == head.y ==> state[9] == 0 && state[10] == 0
  {
    var pointL := Point(head.x - 20, head.y);
    var pointR := Point(head.x + 20, head.y);
    var pointU := Point(head.x, head.y - 20);
    var pointD := Point(head.x, head.y + 20);

    var dirL := direction == Left;
    var dirR := direction == Right;
    var dirU := direction == Up;
    var dirD := direction == Down;

    [
      Flag((dirR && Collision(w, h, snake, pointR)) ||
           (dirL && Collision(w, h, snake, pointL)) ||
           (dirU && Collision(w, h, snake, pointU)) ||
           (dirD && Collision(w, h, snake, pointD))),

      Flag((dirU && Collision(w, h, snake, pointR)) ||
           (dirD && Collision(w, h, snake, pointL)) ||
           (dirL && Collision(w, h, snake, pointU)) ||
           (dirR && Collision(w, h, snake, pointD))),

      Flag((dirD && Collision(w, h, snake, pointR)) ||
           (dirU && Collision(w, h, snake, pointL)) ||
           (dirR && Collision(w, h, snake, pointU)) ||
           (dirL && Collision(w, h, snake, pointD))),

      Flag(dirL), Flag(dirR), Flag(dirU), Flag(dirD),
      Flag(food.x < head.x),
      Flag(food.x > head.x),
      Flag(food.y < head.y),
      Flag(food.y > head.y)
    ]
  }

  /** Reads the heading back from entries 3..6 of a state vector. */
  function DecodeHeading(state: seq<int>): Direction
    requires |state| >= 7
  {
    if state[3] == 1 then Left
    else if state[4] == 1 then Right
    else if state[5] == 1 then Up
    else Down
  }

  /** Entries 3..6 are a faithful one-hot code of the heading. */
  lemma HeadingRoundTrip(w: int, h: int, head: Point, snake: seq<Point>, food: Point, direction: Direction)
    ensures DecodeHeading(CalculateState(w, h, head, snake, food, direction)) == direction
  {
  }

  /** The danger flags probe exactly the cells the environment's move reaches
      for the actions [1,0,0], [0,1,0] and [0,0,1]. */
  lemma DangerFlags(w: int, h: int, head: Point, snake: seq<Point>, food: Point, direction: Direction)
    ensures var state := CalculateState(w, h, head, snake, food, direction);
      state[0] == Flag(Collision(w, h, snake, Advance(head, Turn(direction, [1, 0, 0])))) &&
      state[1] == Flag(Collision(w, h, snake, Advance(head, Turn(direction, [0, 1, 0])))) &&
      state[2] == Flag(Collision(w, h, snake, Advance(head, Turn(direction, [0, 0, 1]))))
  {
  }

  /** The food flags are the signs of the offsets from head to food. */
  lemma FoodFlags(w: int, h: int, head: Point, snake: seq<Point>, food: Point, direction: Direction)
    ensures var state := CalculateState(w, h, head, snake, food, direction);
      (state[7] == 1 <==> food.x < head.x) && (state[8] == 1 <==> food.x > head.x) &&
      (state[9] == 1 <==> food.y < head.y) && (state[10] == 1 <==> food.y > head.y)
  {
  }

  // ---------------------------------------------------------------------
  // Replay memory
  // ---------------------------------------------------------------------

  /** One experience tuple `(state, action, reward, next_state, done)`. */
  datatype Transition = Transition(state: seq<int>, action: seq<int>, reward: int, nextState: seq<int>, done: bool)

  /** What a `deque(maxlen=MAX_MEMORY)` holds after all of `s` was appended:
      the last MAX_MEMORY items, in order. */
  function Recent(s: seq<Transition>): (r: seq<Transition>)
    ensures |r| <= MAX_MEMORY
    ensures |s| <= MAX_MEMORY ==> r == s
    ensures |s| > MAX_MEMORY ==> |r| == MAX_MEMORY && r == s[|s| - MAX_MEMORY..]
  {
    if |s| <= MAX_MEMORY then s else s[|s| - MAX_MEMORY..]
  }

  /** Appending to a bounded memory only ever needs its recent part. */
  lemma {:induction false} RecentAppend(s: seq<Transition>, x: Transition)
    ensures Recent(Recent(s) + [x]) == Recent(s + [x])
  {
    if |s| > MAX_MEMORY {
      var r := s[|s| - MAX_MEMORY..];
      assert Recent(s) == r;
      assert (r + [x])[1..] == (s + [x])[|s| + 1 - MAX_MEMORY..];
    }
  }

  /** The memory after `remember` was called once per item of `xs`, in order. */
  function RememberAll(m: seq<Transition>, xs: seq<Transition>): seq<Transition>
    decreases |xs|
  {
    if xs == [] then m else RememberAll(Recent(m + [xs[0]]), xs[1..])
  }

  /** After any sequence of appends the memory holds the most recent
      MAX_MEMORY of everything appended, oldest first, the newest last. */
  lemma {:induction false} RememberAllRecent(s: seq<Transition>, xs: seq<Transition>)
    ensures RememberAll(Recent(s), xs) == Recent(s + xs)
    decreases |xs|
  {
    if xs == [] {
      assert s + xs == s;
    } else {
      RecentAppend(s, xs[0]);
      RememberAllRecent(s + [xs[0]], xs[1..]);
      assert s + [xs[0]] + xs[1..] == s + xs;
    }
  }

  /** From an empty memory: the most recent MAX_MEMORY appends, the newest
      one last. */
  lemma FreshMemoryAfterAppends(xs: seq<Transition>)
    ensures RememberAll([], xs) == Recent(xs)
    ensures |xs| > 0 ==> var m := RememberAll([], xs); |m| > 0 && m[|m| - 1] == xs[|xs| - 1]
  {
    RememberAllRecent([], xs);
    assert [] + xs == xs;
  }

  // ---------------------------------------------------------------------
  // Long-memory batch
  // ---------------------------------------------------------------------

  /** The positions `random.sample(memory, BATCH_SIZE)` draws: BATCH_SIZE
      distinct indices into the memory. */
  predicate ValidSample(picks: seq<int>, n: int)
  {
    |picks| == BATCH_SIZE &&
    (forall i :: 0 <= i < |picks| ==> 0 <= picks[i] < n) &&
    (forall i, j :: 0 <= i < j < |picks| ==> picks[i] != picks[j])
  }

  predicate InRange(picks: seq<int>, n: int)
  {
    forall i :: 0 <= i < |picks| ==> 0 <= picks[i] < n
  }

  predicate Distinct(picks: seq<int>)
  {
    forall i, j :: 0 <= i < j < |picks| ==> picks[i] != picks[j]
  }

  /** The memory entries at the given positions, in the order drawn. */
  function Pick(mem: seq<Transition>, picks: seq<int>): (r: seq<Transition>)
    requires InRange(picks, |mem|)
    ensures |r| == |picks|
    ensures forall i :: 0 <= i < |r| ==> r[i] == mem[picks[i]]
    decreases |picks|
  {
    if picks == [] then [] else [mem[picks[0]]] + Pick(mem, picks[1..])
  }

  /** The memory with the entry at position `p` taken out. */
  function Without(mem: seq<Transition>, p: int): (r: seq<Transition>)
    requires 0 <= p < |mem|
    ensures |r| == |mem| - 1
  {
    mem[..p] + mem[p + 1..]
  }

  /** Positions into `mem` renumbered as positions into `Without(mem, p)`. */
  function Renumber(picks: seq<int>, p: int): (r: seq<int>)
    ensures |r| == |picks|
  {
    seq(|picks|, i requires 0 <= i < |picks| => if picks[i] < p then picks[i] else picks[i] - 1)
  }

  lemma WithoutIndex(mem: seq<Transition>, p: int, k: int)
    requires 0 <= p < |mem| && 0 <= k < |mem| - 1
    ensures Without(mem, p)[k] == if k < p then mem[k] else mem[k + 1]
  {
  }

  lemma WithoutMultiset(mem: seq<Transition>, p: int)
    requires 0 <= p < |mem|
    ensures multiset(mem) == multiset(Without(mem, p)) + multiset{mem[p]}
  {
    assert mem == mem[..p] + [mem[p]] + mem[p + 1..];
  }

  /** Renumbering the other draws keeps them in range and distinct. */
  lemma RenumberValid(n: int, picks: seq<int>)
    requires |picks| > 0 && InRange(picks, n) && Distinct(picks)
    ensures InRange(Renumber(picks[1..], picks[0]), n - 1)
    ensures Distinct(Renumber(picks[1..], picks[0]))
  {
    var p, rest := picks[0], picks[1..];
    forall i | 0 <= i < |rest|
      ensures rest[i] != p && 0 <= rest[i] < n
    {
      assert rest[i] == picks[i + 1];
    }
    forall i, j | 0 <= i < j < |rest|
      ensures rest[i] != rest[j]
    {
      assert rest[i] == picks[i + 1] && rest[j] == picks[j + 1];
    }
  }

  /** A renumbered position names the same entry in the shortened memory. */
  lemma RenumberAt(mem: seq<Transition>, p: int, q: int)
    requires 0 <= p < |mem| && 0 <= q < |mem| && q != p
    ensures var k := if q < p then q else q - 1;
      0 <= k < |mem| - 1 && Without(mem, p)[k] == mem[q]
  {
    var k := if q < p then q else q - 1;
    WithoutIndex(mem, p, k);
  }

  /** Renumbered draws pick the same entries from the shortened memory. */
  lemma RenumberPick(mem: seq<Transition>, picks: seq<int>)
    requires |picks| > 0 && InRange(picks, |mem|) && Distinct(picks)
    ensures InRange(Renumber(picks[1..], picks[0]), |mem| - 1)
    ensures Pick(Without(mem, picks[0]), Renumber(picks[1..], picks[0])) == Pick(mem, picks[1..])
  {
    RenumberValid(|mem|, picks);
    var p, rest := picks[0], picks[1..];
    var a, b := Pick(Without(mem, p), Renumber(rest, p)), Pick(mem, rest);
    forall i | 0 <= i < |rest|
      ensures a[i] == b[i]
    {
      assert rest[i] == picks[i + 1] && picks[0] != picks[i + 1];
      RenumberAt(mem, p, rest[i]);
    }
  }

  /** Entries drawn at distinct positions form a sub-multiset of the memory. */
  lemma {:induction false} PickSubMultiset(mem: seq<Transition>, picks: seq<int>)
    requires InRange(picks, |mem|) && Distinct(picks)
    ensures multiset(Pick(mem, picks)) <= multiset(mem)
    decreases |picks|
  {
    if picks != [] {
      var p := picks[0];
      RenumberValid(|mem|, picks);
      RenumberPick(mem, picks);
      PickSubMultiset(Without(mem, p), Renumber(picks[1..], p));
      WithoutMultiset(mem, p);
      assert Pick(mem, picks) == [mem[p]] + Pick(mem, picks[1..]);
    }
  }

  // ---------------------------------------------------------------------
  // Action selection
  // ---------------------------------------------------------------------

  /** The move index `get_action` settles on: a random one when training and
      the draw from `randint(0, 200)` is below epsilon `80 - n_games`,
      otherwise the network's argmax. */
  function ChooseMove(trainingMode: bool, nGames: int, randomDraw: int, randomMove: int, argmax: int): (move: int)
    requires 0 <= randomDraw <= 200 && 0 <= randomMove <= 2 && 0 <= argmax <= 2
    ensures 0 <= move <= 2
    ensures !trainingMode ==> move == argmax
    ensures nGames >= 80 ==> move == argmax
    ensures trainingMode && randomDraw < 80 - nGames ==> move == randomMove
    ensures move != argmax ==> trainingMode && randomDraw < 80 - nGames && move == randomMove
  {
    var epsilon := if trainingMode then 80 - nGames else 0;
    if trainingMode && randomDraw < epsilon then randomMove else argmax
  }

  /** The list `final_move` with a 1 at the chosen index. */
  function OneHot(move: int): (v: seq<int>)
    requires 0 <= move <= 2
    ensures |v| == 3 && v[move] == 1
    ensures forall i :: 0 <= i < 3 && i != move ==> v[i] == 0
  {
    [0, 0, 0][move := 1]
  }

  /** A one-hot result is read back by the environment as the move chosen:
      index 0 straight, 1 a right turn, 2 a left turn. */
  lemma OneHotTurns(d: Direction, move: int)
    requires 0 <= move <= 2
    ensures move == 0 ==> Turn(d, OneHot(move)) == d
    ensures move == 1 ==> Turn(d, OneHot(move)) == Clockwise(d)
    ensures move == 2 ==> Turn(d, OneHot(move)) == CounterClockwise(d)
  {
    if move == 0 {
      assert OneHot(move) == [1, 0, 0];
    } else if move == 1 {
      assert OneHot(move) == [0, 1, 0];
    } else {
      assert OneHot(move) == [0, 0, 1];
    }
  }

  // ---------------------------------------------------------------------
  // Checkpoint decision
  // ---------------------------------------------------------------------

  /** The counters `train_ai` keeps across games, and whether the last
      finished game caused a save. */
  datatype Progress = Progress(nGames: int, record: int, sessionGames: int, saved: bool)

  /** The bookkeeping when a game ends: count it; in training mode save on a
      new record (which becomes the record) or else every 10th game. */
  function OnGameOver(trainingMode: bool, p: Progress, score: int): (q: Progress)
    ensures q.nGames == p.nGames + 1 && q.sessionGames == p.sessionGames + 1
    ensures q.record >= p.record
    ensures q.saved <==> trainingMode && (score > p.record || q.nGames % 10 == 0)
    ensures trainingMode && score > p.record ==> q.record == score
    ensures q.record != p.record ==> trainingMode && q.record == score && score > p.record
  {
    var n := p.nGames + 1;
    if trainingMode && score > p.record then Progress(n, score, p.sessionGames + 1, true)
    else if trainingMode && n % 10 == 0 then Progress(n, p.record, p.sessionGames + 1, true)
    else Progress(n, p.record, p.sessionGames + 1, false)
  }

  /** The bookkeeping over a run of finished games with the given scores. */
  function GamesOver(trainingMode: bool, p: Progress, scores: seq<int>): Progress
    decreases |scores|
  {
    if scores == [] then p else GamesOver(trainingMode, OnGameOver(trainingMode, p, scores[0]), scores[1..])
  }

  /** Over any run of games the counters advance by the number of games, and
      in training mode the record becomes the best of the old record and all
      scores: never lower than either, and equal to one of them. */
  lemma {:induction false} GamesOverRecord(trainingMode: bool, p: Progress, scores: seq<int>)
    ensures var q := GamesOver(trainingMode, p, scores);
      q.nGames == p.nGames + |scores| && q.sessionGames == p.sessionGames + |scores| &&
      q.record >= p.record &&
      (trainingMode ==> forall i :: 0 <= i < |scores| ==> q.record >= scores[i]) &&
      (!trainingMode ==> q.record == p.record) &&
      (q.record == p.record || exists i :: 0 <= i < |scores| && q.record == scores[i])
    decreases |scores|
  {
    if scores != [] {
      var p1 := OnGameOver(trainingMode, p, scores[0]);
      GamesOverRecord(trainingMode, p1, scores[1..]);
      var q := GamesOver(trainingMode, p, scores);
      if trainingMode {
        forall i | 0 <= i < |scores|
          ensures q.record >= scores[i]
        {
          if i > 0 { assert scores[i] == scores[1..][i - 1]; }
        }
      }
      if q.record != p1.record {
        var i :| 0 <= i < |scores[1..]| && q.record == scores[1..][i];
        assert q.record == scores[i + 1];
      } else if p1.record != p.record {
        assert q.record == scores[0];
      }
    }
  }

  /** In training mode every 10th game is saved whatever its score. */
  lemma TenthGameSaves(p: Progress, score: int)
    requires (p.nGames + 1) % 10 == 0
    ensures OnGameOver(true, p, score).saved
  {
  }

  // ---------------------------------------------------------------------
  // The agent object
  // ---------------------------------------------------------------------

  class Agent {
    var nGames: int
    var epsilon: int
    var memory: seq<Transition>
    const trainingMode: bool
    var loadedRecord: int

    ghost predicate Valid()
      reads this
    {
      |memory| <= MAX_MEMORY
    }

    /** `loaded`, `oldGames` and `oldRecord` are what the checkpoint load
        returned; outside training mode the counters start from zero. */
    constructor (trainingMode: bool, loaded: bool, oldGames: int, oldRecord: int)
      ensures Valid() && memory == [] && epsilon == 0 && this.trainingMode == trainingMode
      ensures nGames == (if loaded && trainingMode then oldGames else 0)
      ensures loadedRecord == (if loaded && trainingMode then oldRecord else 0)
    {
      nGames := 0;
      epsilon := 0;
      memory := [];
      this.trainingMode := trainingMode;
      loadedRecord := 0;
      new;
      if loaded {
        if trainingMode {
          nGames := oldGames;
          loadedRecord := oldRecord;
        } else {
          nGames := 0;
        }
      }
    }

    /** `memory.append`: drop the oldest entry when full, then append. */
    method Remember(t: Transition)
      requires Valid()
      modifies this`memory
      ensures Valid()
      ensures memory == Recent(old(memory) + [t])
    {
      if |memory| == MAX_MEMORY {
        memory := memory[1..];
      }
      memory := memory + [t];
    }

    /** The batch `train_long_memory` hands to the trainer: when the memory
        holds more than BATCH_SIZE entries, the BATCH_SIZE entries at the
        sampled distinct positions, otherwise the whole memory. */
    method TrainLongMemory(picks: seq<int>) returns (miniSample: seq<Transition>)
      requires |memory| > BATCH_SIZE ==> ValidSample(picks, |memory|)
      ensures |memory| > BATCH_SIZE ==>
        |miniSample| == BATCH_SIZE && multiset(miniSample) <= multiset(memory) &&
        forall i :: 0 <= i < BATCH_SIZE ==> miniSample[i] == memory[picks[i]]
      ensures |memory| <= BATCH_SIZE ==> miniSample == memory
    {
      if |memory| > BATCH_SIZE {
        miniSample := Pick(memory, picks);
        PickSubMultiset(memory, picks);
      } else {
        miniSample := memory;
      }
    }

    /** `get_action`: set epsilon, then a random move or the argmax, one-hot. */
    method GetAction(randomDraw: int, randomMove: int, argmax: int) returns (finalMove: seq<int>)
      requires 0 <= randomDraw <= 200 && 0 <= randomMove <= 2 && 0 <= argmax <= 2
      modifies this`epsilon
      ensures epsilon == (if trainingMode then 80 - nGames else 0)
      ensures finalMove == OneHot(ChooseMove(trainingMode, nGames, randomDraw, randomMove, argmax))
    {
      if trainingMode {
        epsilon := 80 - nGames;
      } else {
        epsilon := 0;
      }
      finalMove := [0, 0, 0];
      var move;
      if trainingMode && randomDraw < epsilon {
        move := randomMove;
      } else {
        move := argmax;
      }
      finalMove := finalMove[move := 1];
    }
  }
}
