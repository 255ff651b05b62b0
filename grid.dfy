/** Grid vocabulary shared by the solo and the versus environment:
    headings, cells, the relative-turn table, one-cell moves, the
    collision predicate and food placement from supplied random draws. */
module Grid {

  /** Side of one cell, in pixels. */
  const BLOCK_SIZE: int := 20

  datatype Direction = Right | Left | Up | Down

  datatype Point = Point(x: int, y: int)

  /** The clockwise order used to turn a relative action into a heading. */
  const CLOCK_WISE: seq<Direction> := [Right, Down, Left, Up]

  /** Reference definitions of a quarter turn, independent of the table. */
  function Clockwise(d: Direction): Direction
  {
    match d
    case Right => Down
    case Down => Left
    case Left => Up
    case Up => Right
  }

  function CounterClockwise(d: Direction): Direction
  {
    match d
    case Right => Up
    case Up => Left
    case Left => Down
    case Down => Right
  }

  function Opposite(d: Direction): Direction
  {
    match d
    case Right => Left
    case Left => Right
    case Up => Down
    case Down => Up
  }

  /** Position of a heading in the clockwise table (`clock_wise.index`). */
  function ClockIndex(d: Direction): (i: nat)
    ensures i < |CLOCK_WISE| && CLOCK_WISE[i] == d
  {
    match d
    case Right => 0
    case Down => 1
    case Left => 2
    case Up => 3
  }

  /** The heading after a relative action: `[1,0,0]` keeps the heading,
      `[0,1,0]` steps clockwise, and every other list, whatever it holds, steps
      counter-clockwise. */
  function Turn(d: Direction, action: seq<int>): (nd: Direction)
    ensures action == [1, 0, 0] ==> nd == d
    ensures action != [1, 0, 0] && action == [0, 1, 0] ==> nd == Clockwise(d)
    ensures action != [1, 0, 0] && action != [0, 1, 0] ==> nd == CounterClockwise(d)
    ensures nd != Opposite(d)
  {
    var idx := ClockIndex(d);
    if action == [1, 0, 0] then CLOCK_WISE[idx]
    else if action == [0, 1, 0] then CLOCK_WISE[(idx + 1) % 4]
    else CLOCK_WISE[(idx - 1) % 4]
  }

  /** A right turn followed by a left turn (and the reverse) restores the
      heading; four right turns are a full circle. */
  lemma TurnRightThenLeft(d: Direction)
    ensures Turn(Turn(d, [0, 1, 0]), [0, 0, 1]) == d
    ensures Turn(Turn(d, [0, 0, 1]), [0, 1, 0]) == d
    ensures Turn(Turn(Turn(Turn(d, [0, 1, 0]), [0, 1, 0]), [0, 1, 0]), [0, 1, 0]) == d
  {
  }

  /** The cell one step from `p` in heading `d`. */
  function Advance(p: Point, d: Direction): (q: Point)
    ensures d == Right || d == Left ==> q.y == p.y && q.x - p.x == (if d == Right then BLOCK_SIZE else -BLOCK_SIZE)
    ensures d == Down || d == Up ==> q.x == p.x && q.y - p.y == (if d == Down then BLOCK_SIZE else -BLOCK_SIZE)
  {
    match d
    case Right => Point(p.x + BLOCK_SIZE, p.y)
    case Left => Point(p.x - BLOCK_SIZE, p.y)
    case Down => Point(p.x, p.y + BLOCK_SIZE)
    case Up => Point(p.x, p.y - BLOCK_SIZE)
  }

  /** Moving back in the opposite heading undoes a move, and moves in
      different headings never reach the same cell. */
  lemma AdvanceInverse(p: Point, d: Direction, e: Direction)
    ensures Advance(Advance(p, d), Opposite(d)) == p
    ensures d != e ==> Advance(p, d) != Advance(p, e)
    ensures Advance(p, d) != p
  {
  }

  predicate InBounds(w: int, h: int, p: Point)
  {
    0 <= p.x <= w - BLOCK_SIZE && 0 <= p.y <= h - BLOCK_SIZE
  }

  /** On a cell of the food grid: aligned to BLOCK_SIZE and inside the arena. */
  predicate OnGrid(w: int, h: int, p: Point)
  {
    InBounds(w, h, p) && p.x % BLOCK_SIZE == 0 && p.y % BLOCK_SIZE == 0
  }

  /** Python's `body[1:]`, which is empty for an empty list. */
  function Rest(body: seq<Point>): seq<Point>
  {
    if |body| == 0 then [] else body[1..]
  }

  /** The collision test of both environments: outside the arena, or on any
      body segment but the first. */
  function Collision(w: int, h: int, body: seq<Point>, pt: Point): (c: bool)
    ensures !InBounds(w, h, pt) ==> c
    ensures c && InBounds(w, h, pt) ==> pt in body && |body| >= 2
    ensures |body| <= 1 ==> (c <==> !InBounds(w, h, pt))
  {
    pt.x > w - BLOCK_SIZE || pt.x < 0 || pt.y > h - BLOCK_SIZE || pt.y < 0 || pt in Rest(body)
  }

  /** Collision holds exactly when the point leaves the arena or equals some
      segment at index 1 or later; the segment at index 0 is never counted. */
  lemma CollisionIff(w: int, h: int, body: seq<Point>, pt: Point)
    ensures Collision(w, h, body, pt) <==>
      !InBounds(w, h, pt) || exists i :: 1 <= i < |body| && body[i] == pt
    ensures |body| > 0 && pt == body[0] && InBounds(w, h, pt) && pt !in body[1..] ==>
      !Collision(w, h, body, pt)
  {
    if exists i :: 1 <= i < |body| && body[i] == pt {
      var i :| 1 <= i < |body| && body[i] == pt;
      assert body[1..][i - 1] == pt;
    }
  }

  // ---------------------------------------------------------------------
  // Food placement
  // ---------------------------------------------------------------------

  /** One random draw of `_place_food`: a column and a row index. */
  datatype Draw = Draw(col: int, row: int)

  /** The documented range of `random.randint(0, (w - BLOCK_SIZE) // BLOCK_SIZE)`
      and of its row counterpart. */
  predicate ValidDraw(w: int, h: int, d: Draw)
  {
    0 <= d.col <= (w - BLOCK_SIZE) / BLOCK_SIZE && 0 <= d.row <= (h - BLOCK_SIZE) / BLOCK_SIZE
  }

  predicate ValidDraws(w: int, h: int, draws: seq<Draw>)
  {
    forall k :: 0 <= k < |draws| ==> ValidDraw(w, h, draws[k])
  }

  function Cell(d: Draw): Point
  {
    Point(d.col * BLOCK_SIZE, d.row * BLOCK_SIZE)
  }

  /** The retry loop returns once some draw lands outside the body. */
  predicate HasFreeDraw(draws: seq<Draw>, body: seq<Point>)
  {
    exists k :: 0 <= k < |draws| && Cell(draws[k]) !in body
  }

  /** Index of the draw that placement settles on: the first one whose cell is
      not in the body. */
  function FirstFreeIndex(draws: seq<Draw>, body: seq<Point>): (k: nat)
    requires HasFreeDraw(draws, body)
    ensures k < |draws| && Cell(draws[k]) !in body
    decreases |draws|
  {
    if Cell(draws[0]) !in body then 0
    else
      var k :| 0 <= k < |draws| && Cell(draws[k]) !in body;
      assert Cell(draws[1..][k - 1]) !in body;
      1 + FirstFreeIndex(draws[1..], body)
  }

  /** Every draw before the one placement settles on lands on the body, so
      the retry loop rejects exactly those. */
  lemma {:induction false} FirstFreeIndexIsFirst(draws: seq<Draw>, body: seq<Point>, j: int)
    requires HasFreeDraw(draws, body)
    requires 0 <= j < FirstFreeIndex(draws, body)
    ensures Cell(draws[j]) in body
    decreases |draws|
  {
    if j > 0 {
      var k :| 0 <= k < |draws| && Cell(draws[k]) !in body;
      assert Cell(draws[1..][k - 1]) !in body;
      FirstFreeIndexIsFirst(draws[1..], body, j - 1);
    }
  }

  /** The food that placement settles on. */
  function FoodFrom(draws: seq<Draw>, body: seq<Point>): Point
    requires HasFreeDraw(draws, body)
  {
    Cell(draws[FirstFreeIndex(draws, body)])
  }

  /** A cell built from a draw in randint's range is grid-aligned and inside
      `[0, w - BLOCK_SIZE] x [0, h - BLOCK_SIZE]`. */
  lemma {:induction false} DrawOnGrid(w: int, h: int, d: Draw)
    requires ValidDraw(w, h, d)
    ensures OnGrid(w, h, Cell(d))
  {
    assert ((w - BLOCK_SIZE) / BLOCK_SIZE) * BLOCK_SIZE <= w - BLOCK_SIZE;
    assert ((h - BLOCK_SIZE) / BLOCK_SIZE) * BLOCK_SIZE <= h - BLOCK_SIZE;
    assert d.col * BLOCK_SIZE <= ((w - BLOCK_SIZE) / BLOCK_SIZE) * BLOCK_SIZE;
    assert d.row * BLOCK_SIZE <= ((h - BLOCK_SIZE) / BLOCK_SIZE) * BLOCK_SIZE;
  }

  /** Placed food is on the grid and not on the body it was placed against. */
  lemma FoodPlacement(w: int, h: int, draws: seq<Draw>, body: seq<Point>)
    requires ValidDraws(w, h, draws) && HasFreeDraw(draws, body)
    ensures OnGrid(w, h, FoodFrom(draws, body))
    ensures FoodFrom(draws, body) !in body
  {
    DrawOnGrid(w, h, draws[FirstFreeIndex(draws, body)]);
  }

  // ---------------------------------------------------------------------
  // Spawning
  // ---------------------------------------------------------------------

  /** Arena sizes the model accepts: at least one cell in each dimension
      (randint's range is empty otherwise) and even, so that the centre
      `w / 2, h / 2` is an integer. */
  predicate Arena(w: int, h: int)
  {
    w >= BLOCK_SIZE && h >= BLOCK_SIZE && w % 2 == 0 && h % 2 == 0
  }

  function Centre(w: int, h: int): Point
  {
    Point(w / 2, h / 2)
  }

  /** The three-segment body created by `reset` and `_respawn`, head first. */
  function SpawnBody(w: int, h: int): (body: seq<Point>)
    ensures |body| == 3 && body[0] == Centre(w, h)
  {
    var c := Centre(w, h);
    [c, Point(c.x - BLOCK_SIZE, c.y), Point(c.x - 2 * BLOCK_SIZE, c.y)]
  }
}
