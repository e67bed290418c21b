/**
 * The rules one tick of the game applies, shared by the three copies of
 * the game state (src/pyretro/snake/state.py, src/pyretro/snek/state.py
 * and src/pyretro/snake/model/__init__.py): placing new food by
 * rejection, growing or moving the snake, and the direction lock of the
 * first copy.
 */
module GameRules {
  import opened Wrappers
  import opened Structs
  import opened Sprites
  import opened Random
  import opened Factories

  /** How a tick can fail to finish. */
  datatype Failure =
    /** The food search was still redrawing after the generator's redraw limit. */
    | Hung
    /** `move` on a one-segment snake: `self.head` after the pop raises IndexError. */
    | IndexError

  function FactoryOf(s: GameSettings): CoordinateFactory {
    CoordinateFactory(s.unitSize, s.gridSize)
  }

  lemma PlayableFactory(s: GameSettings)
    ensures Playable(s) <==> FactoryOf(s).Valid()
  {
  }

  /** Every rectangle is a cell of the grid. */
  predicate AllCells(c: CoordinateFactory, rs: seq<Rect>)
    requires c.Valid()
  {
    forall i :: 0 <= i < |rs| ==> c.IsCell(rs[i])
  }

  /** Every food lies on a cell of the grid. */
  predicate FoodOnCells(c: CoordinateFactory, fs: seq<Food>)
    requires c.Valid()
  {
    forall i :: 0 <= i < |fs| ==> c.IsCell(fs[i].rect)
  }

  /** Food the head does not find keeps lying on cells. */
  lemma MissedStaysOnCells(c: CoordinateFactory, head: Rect, fs: seq<Food>)
    requires c.Valid() && FoodOnCells(c, fs)
    ensures FoodOnCells(c, MissedBy(head, fs))
  {
    var r := MissedBy(head, fs);
    SplitMembers(head, fs);
    forall i | 0 <= i < |r|
      ensures c.IsCell(r[i].rect)
    {
      var j :| 0 <= j < |fs| && fs[j] == r[i];
    }
  }

  /**
   * Candidate `n` of a search whose first draw is draw `pos`: the food at
   * the cell drawn by draws `pos + 2n` (x) and `pos + 2n + 1` (y).
   */
  function Candidate(c: CoordinateFactory, rng: Rng, pos: nat, n: nat): Food
    requires c.Valid()
  {
    var k := pos + 2 * n;
    var i, j := rng.At(k, 0, c.gridSize.width - 1), rng.At(k + 1, 0, c.gridSize.height - 1);
    Food(Rect(c.unitSize.width * i, c.unitSize.height * j, c.unitSize.width, c.unitSize.height))
  }

  /** Candidate `n` is the food `create_snake_food` makes at the cell drawn for it. */
  lemma CandidateIsDrawn(c: CoordinateFactory, rng: Rng, pos: nat, n: nat)
    requires c.Valid()
    ensures var k := pos + 2 * n;
            Candidate(c, rng, pos, n)
            == CreateSnakeFood(c, c.CellCorner(rng.At(k, 0, c.gridSize.width - 1), rng.At(k + 1, 0, c.gridSize.height - 1)))
  {
  }

  /** Every candidate lies on a cell of the grid. */
  lemma CandidateIsCell(c: CoordinateFactory, rng: Rng, pos: nat, n: nat)
    requires c.Valid()
    ensures c.IsCell(Candidate(c, rng, pos, n).rect)
  {
    var k := pos + 2 * n;
    var p := c.CellCorner(rng.At(k, 0, c.gridSize.width - 1), rng.At(k + 1, 0, c.gridSize.height - 1));
    assert c.OnGrid(p);
    CandidateIsDrawn(c, rng, pos, n);
  }

  /** Candidate `n` collides with a segment of `body`. */
  predicate Blocked(c: CoordinateFactory, rng: Rng, body: seq<Rect>, pos: nat, n: nat)
    requires c.Valid()
  {
    AnyOverlap(body, Candidate(c, rng, pos, n).Rects())
  }

  /**
   * The candidate `add_snake_food`'s loop accepts, looking from candidate
   * `n` on: the first that overlaps no rectangle of `body`; `None` when
   * none of the next `fuel + 1` candidates is free.
   */
  function FirstFree(c: CoordinateFactory, rng: Rng, body: seq<Rect>, pos: nat, n: nat, fuel: nat)
    : (r: Option<nat>)
    requires c.Valid()
    decreases fuel
  {
    if !Blocked(c, rng, body, pos, n) then Some(n)
    else if fuel == 0 then None
    else FirstFree(c, rng, body, pos, n + 1, fuel - 1)
  }

  /**
   * The search finds the first free candidate: every candidate before the
   * one found is blocked, and when it finds none, all of them are.
   */
  lemma {:induction false} FirstFreeIsFirst(c: CoordinateFactory, rng: Rng, body: seq<Rect>, pos: nat, n: nat, fuel: nat)
    requires c.Valid()
    ensures var r := FirstFree(c, rng, body, pos, n, fuel);
            r.Some? ==> n <= r.value <= n + fuel && !Blocked(c, rng, body, pos, r.value)
    ensures var r := FirstFree(c, rng, body, pos, n, fuel);
            r.Some? ==> forall m :: n <= m < r.value ==> Blocked(c, rng, body, pos, m)
    ensures FirstFree(c, rng, body, pos, n, fuel).None? ==>
              forall m :: n <= m <= n + fuel ==> Blocked(c, rng, body, pos, m)
    decreases fuel
  {
    if Blocked(c, rng, body, pos, n) && fuel > 0 {
      FirstFreeIsFirst(c, rng, body, pos, n + 1, fuel - 1);
    }
  }

  /** A free candidate ends the search. */
  lemma SearchStops(c: CoordinateFactory, rng: Rng, body: seq<Rect>, pos: nat, n: nat, fuel: nat)
    requires c.Valid() && !Blocked(c, rng, body, pos, n)
    ensures FirstFree(c, rng, body, pos, n, fuel) == Some(n)
  {
  }

  /** A blocked candidate with fuel left passes the search on to the next one. */
  lemma SearchGoesOn(c: CoordinateFactory, rng: Rng, body: seq<Rect>, pos: nat, n: nat, fuel: nat)
    requires c.Valid() && Blocked(c, rng, body, pos, n) && fuel > 0
    ensures FirstFree(c, rng, body, pos, n, fuel) == FirstFree(c, rng, body, pos, n + 1, fuel - 1)
  {
  }

  /** A blocked candidate with no fuel left ends the search without food. */
  lemma SearchGivesUp(c: CoordinateFactory, rng: Rng, body: seq<Rect>, pos: nat, n: nat)
    requires c.Valid() && Blocked(c, rng, body, pos, n)
    ensures FirstFree(c, rng, body, pos, n, 0) == None
  {
  }

  /** The food `add_snake_food` appends, if its search ends within the redraw limit. */
  function Spawned(c: CoordinateFactory, rng: Rng, body: seq<Rect>, pos: nat): Option<Food>
    requires c.Valid()
  {
    match FirstFree(c, rng, body, pos, 0, rng.redrawLimit)
    case None => None
    case Some(n) => Some(Candidate(c, rng, pos, n))
  }

  /** The generator position after `add_snake_food`'s search. */
  function SpawnEnd(c: CoordinateFactory, rng: Rng, body: seq<Rect>, pos: nat): nat
    requires c.Valid()
  {
    match FirstFree(c, rng, body, pos, 0, rng.redrawLimit)
    case None => pos + 2 * rng.redrawLimit + 2
    case Some(n) => pos + 2 * n + 2
  }

  lemma SpawnedBySearch(c: CoordinateFactory, rng: Rng, body: seq<Rect>, pos: nat)
    requires c.Valid()
    ensures FirstFree(c, rng, body, pos, 0, rng.redrawLimit).None? ==> Spawned(c, rng, body, pos) == None
    ensures FirstFree(c, rng, body, pos, 0, rng.redrawLimit).None? ==>
              SpawnEnd(c, rng, body, pos) == pos + 2 * rng.redrawLimit + 2
    ensures FirstFree(c, rng, body, pos, 0, rng.redrawLimit).Some? ==>
              var n := FirstFree(c, rng, body, pos, 0, rng.redrawLimit).value;
              Spawned(c, rng, body, pos) == Some(Candidate(c, rng, pos, n)) && SpawnEnd(c, rng, body, pos) == pos + 2 * n + 2
  {
  }

  /** Food placed by the search lies on the grid and overlaps no segment. */
  lemma SpawnedIsFree(c: CoordinateFactory, rng: Rng, body: seq<Rect>, pos: nat)
    requires c.Valid()
    ensures Spawned(c, rng, body, pos).Some? ==>
              var f := Spawned(c, rng, body, pos).value;
              c.IsCell(f.rect) && forall i :: 0 <= i < |body| ==> !Overlaps(body[i], f.rect)
  {
    if Spawned(c, rng, body, pos).Some? {
      var f := Spawned(c, rng, body, pos).value;
      CandidateIsCell(c, rng, pos, FirstFree(c, rng, body, pos, 0, rng.redrawLimit).value);
      FirstFreeIsFirst(c, rng, body, pos, 0, rng.redrawLimit);
      forall i | 0 <= i < |body|
        ensures !Overlaps(body[i], f.rect)
      {
        assert f.Rects()[0] == f.rect;
      }
    }
  }

  /** `new_snake_food_location()` followed by `create_snake_food`: candidate `n`. */
  method DrawCandidate(c: CoordinateFactory, rng: Rng, ghost pos: nat, ghost n: nat) returns (f: Food)
    requires c.Valid() && rng.pos == pos + 2 * n
    modifies rng
    ensures f == Candidate(c, rng, pos, n)
    ensures rng.pos == old(rng.pos) + 2
  {
    var p := c.NewFoodLocation(rng);
    f := CreateSnakeFood(c, p);
    CandidateIsDrawn(c, rng, pos, n);
  }

  /** `collides_with_sprite` on candidate `n`. */
  method Probe(c: CoordinateFactory, rng: Rng, snake: Snake, ghost pos: nat, ghost n: nat, f: Food)
    returns (hit: bool)
    requires c.Valid() && f == Candidate(c, rng, pos, n)
    ensures hit == Blocked(c, rng, snake.rects, pos, n)
  {
    hit := snake.CollidesWithSprite(f.Rects());
  }

  /**
   * `add_snake_food`'s rejection loop: draws a location, and redraws while
   * the candidate food collides with the snake. Returns `None` when the
   * search is still going after `redrawLimit` redraws.
   */
  method SpawnFood(c: CoordinateFactory, rng: Rng, snake: Snake) returns (f: Option<Food>)
    requires c.Valid()
    modifies rng
    ensures f == Spawned(c, rng, snake.rects, old(rng.pos))
    ensures rng.pos == SpawnEnd(c, rng, snake.rects, old(rng.pos))
  {
    ghost var start := rng.pos;
    var candidate := DrawCandidate(c, rng, start, 0);
    var redraws := 0;
    ghost var fuel := rng.redrawLimit;
    var hit := Probe(c, rng, snake, start, 0, candidate);
    while hit
      invariant redraws + fuel == rng.redrawLimit
      invariant rng.pos == start + 2 * redraws + 2
      invariant candidate == Candidate(c, rng, start, redraws)
      invariant hit <==> Blocked(c, rng, snake.rects, start, redraws)
      invariant FirstFree(c, rng, snake.rects, start, 0, rng.redrawLimit)
                == FirstFree(c, rng, snake.rects, start, redraws, fuel)
      decreases fuel
    {
      if redraws == rng.redrawLimit {
        SearchGivesUp(c, rng, snake.rects, start, redraws);
        SpawnedBySearch(c, rng, snake.rects, start);
        return None;
      }
      SearchGoesOn(c, rng, snake.rects, start, redraws, fuel);
      redraws, fuel := redraws + 1, fuel - 1;
      candidate := DrawCandidate(c, rng, start, redraws);
      hit := Probe(c, rng, snake, start, redraws, candidate);
    }
    SearchStops(c, rng, snake.rects, start, redraws, fuel);
    SpawnedBySearch(c, rng, snake.rects, start);
    f := Some(candidate);
  }

  /**
   * The body after one tick's grow-or-move (`update_sprites`): the head
   * steps in direction `d`; the snake grows when it ate or is shorter than
   * `autoGrowUntil`, and moves otherwise. `None` is the IndexError of
   * moving a one-segment snake.
   */
  function Advance(c: CoordinateFactory, autoGrowUntil: int, body: seq<Rect>, ate: bool, d: Direction)
    : (r: Option<seq<Rect>>)
    requires c.Valid() && |body| >= 1
    ensures r.None? <==> !ate && |body| >= autoGrowUntil && |body| == 1
    ensures r.Some? && (ate || |body| < autoGrowUntil) ==> |r.value| == |body| + 1 && r.value[1..] == body
    ensures r.Some? && !(ate || |body| < autoGrowUntil) ==> |r.value| == |body| && r.value[1..] == body[..|body| - 1]
    ensures r.Some? ==> r.value[0].TopLeft() == c.Step(d, body[0]) && r.value[0].Dimensions() == body[0].Dimensions()
  {
    var p := c.Step(d, body[0]);
    if ate || |body| < autoGrowUntil then Some(GrownBody(body, p))
    else if |body| >= 2 then Some(MovedBody(body, p))
    else None
  }

  /** A tick keeps every segment of a snake made of grid cells on a grid cell. */
  lemma AdvanceStaysOnGrid(c: CoordinateFactory, autoGrowUntil: int, body: seq<Rect>, ate: bool, d: Direction)
    requires c.Valid() && |body| >= 1 && AllCells(c, body)
    ensures Advance(c, autoGrowUntil, body, ate, d).Some? ==> AllCells(c, Advance(c, autoGrowUntil, body, ate, d).value)
  {
    c.StepStaysOnGrid(d, body[0]);
    var r := Advance(c, autoGrowUntil, body, ate, d);
    if r.Some? {
      var b := r.value;
      forall i | 0 <= i < |b|
        ensures c.IsCell(b[i])
      {
        if i > 0 {
          assert b[i] == b[1..][i - 1];
        }
      }
    }
  }

  /** The score (the length) never drops over a tick, and rises exactly when the snake grows. */
  lemma AdvanceScore(c: CoordinateFactory, autoGrowUntil: int, body: seq<Rect>, ate: bool, d: Direction)
    requires c.Valid() && |body| >= 1
    ensures Advance(c, autoGrowUntil, body, ate, d).Some? ==>
              |Advance(c, autoGrowUntil, body, ate, d).value| >= |body|
    ensures ate ==> |Advance(c, autoGrowUntil, body, ate, d).value| == |body| + 1
  {
  }

  /** Below the threshold the snake always grows, so a move needs a snake of at least the threshold's length. */
  lemma MoveOnlyAtThreshold(c: CoordinateFactory, autoGrowUntil: int, body: seq<Rect>, d: Direction)
    requires c.Valid() && |body| >= 1 && autoGrowUntil >= 2
    ensures Advance(c, autoGrowUntil, body, false, d).Some?
    ensures |Advance(c, autoGrowUntil, body, false, d).value| == |body| ==> |body| >= autoGrowUntil
  {
  }

  /** The food list once `update_sprites` has added food to an empty one. */
  function Stocked(c: CoordinateFactory, rng: Rng, body: seq<Rect>, food: seq<Food>, pos: nat): seq<Food>
    requires c.Valid()
  {
    if food == [] && Spawned(c, rng, body, pos).Some? then [Spawned(c, rng, body, pos).value] else food
  }

  /** What one `update_sprites` call leads to. */
  datatype TickOutcome =
    /** The tick finished: the new body and food, and whether COLLIDE was posted. */
    | Ticked(body: seq<Rect>, food: seq<Food>, collided: bool, pos: nat)
    /** The food search did not end within the generator's redraw limit. */
    | Stuck(pos: nat)
    /** `move` raised IndexError after the found food was removed. */
    | Crashed(food: seq<Food>, pos: nat)

  /**
   * One tick from `body`, `food` and direction `d`, the generator at draw
   * `pos`: add food if there is none, remove the food the head finds, grow
   * or move, and signal a self-collision.
   */
  function TickOf(c: CoordinateFactory, autoGrowUntil: int, rng: Rng, body: seq<Rect>, food: seq<Food>,
                  d: Direction, pos: nat): (t: TickOutcome)
    requires c.Valid() && |body| >= 1
    ensures t.Stuck? <==> food == [] && Spawned(c, rng, body, pos).None?
    ensures food != [] ==> t.pos == pos
    ensures food == [] ==> t.pos == SpawnEnd(c, rng, body, pos)
    ensures t.Ticked? ==> |t.body| >= |body| && t.collided == SelfCollides(t.body)
    ensures t.Ticked? ==> t.body[0].TopLeft() == c.Step(d, body[0])
    ensures t.Ticked? || t.Crashed? ==> t.food == MissedBy(body[0], Stocked(c, rng, body, food, pos))
    ensures t.Crashed? <==> !t.Stuck? && |body| == 1 && |body| >= autoGrowUntil
                            && FoundBy(body[0], Stocked(c, rng, body, food, pos)) == []
  {
    if food == [] && Spawned(c, rng, body, pos).None? then Stuck(SpawnEnd(c, rng, body, pos))
    else
      var stocked := Stocked(c, rng, body, food, pos);
      var next := if food == [] then SpawnEnd(c, rng, body, pos) else pos;
      var ate := FoundBy(body[0], stocked) != [];
      match Advance(c, autoGrowUntil, body, ate, d)
      case None => Crashed(MissedBy(body[0], stocked), next)
      case Some(b) => Ticked(b, MissedBy(body[0], stocked), SelfCollides(b), next)
  }

  /** A tick keeps the snake and the food on the grid. */
  lemma TickKeepsGrid(c: CoordinateFactory, autoGrowUntil: int, rng: Rng, body: seq<Rect>, food: seq<Food>,
                      d: Direction, pos: nat)
    requires c.Valid() && |body| >= 1 && AllCells(c, body) && FoodOnCells(c, food)
    ensures var t := TickOf(c, autoGrowUntil, rng, body, food, d, pos);
            (t.Ticked? ==> |t.body| >= 1 && AllCells(c, t.body)) && (t.Ticked? || t.Crashed? ==> FoodOnCells(c, t.food))
  {
    var t := TickOf(c, autoGrowUntil, rng, body, food, d, pos);
    if !t.Stuck? {
      var stocked := Stocked(c, rng, body, food, pos);
      SpawnedIsFree(c, rng, body, pos);
      assert FoodOnCells(c, stocked);
      var ate := FoundBy(body[0], stocked) != [];
      AdvanceStaysOnGrid(c, autoGrowUntil, body, ate, d);
      MissedStaysOnCells(c, body[0], stocked);
    }
  }

  /** Eating removes exactly the food the head finds. */
  lemma TickRemovesFound(c: CoordinateFactory, autoGrowUntil: int, rng: Rng, body: seq<Rect>, food: seq<Food>,
                         d: Direction, pos: nat)
    requires c.Valid() && |body| >= 1
    requires !TickOf(c, autoGrowUntil, rng, body, food, d, pos).Stuck?
    ensures var stocked := Stocked(c, rng, body, food, pos);
            multiset(FoundBy(body[0], stocked) + TickOf(c, autoGrowUntil, rng, body, food, d, pos).food)
            == multiset(stocked)
  {
    SplitIsPermutation(body[0], Stocked(c, rng, body, food, pos));
  }

  /** When the head finds food the snake grows by one, keeping its whole old body. */
  lemma TickGrowsOnFood(c: CoordinateFactory, autoGrowUntil: int, rng: Rng, body: seq<Rect>, food: seq<Food>,
                        d: Direction, pos: nat)
    requires c.Valid() && |body| >= 1
    requires FoundBy(body[0], Stocked(c, rng, body, food, pos)) != []
    ensures var t := TickOf(c, autoGrowUntil, rng, body, food, d, pos);
            t.Ticked? ==> |t.body| == |body| + 1 && t.body[1..] == body
  {
  }

  /** Food added to an empty list is the only food and overlaps no segment. */
  lemma TickStocksFreeFood(c: CoordinateFactory, rng: Rng, body: seq<Rect>, pos: nat)
    requires c.Valid() && |body| >= 1
    requires Spawned(c, rng, body, pos).Some?
    ensures var stocked := Stocked(c, rng, body, [], pos);
            |stocked| == 1 && forall i :: 0 <= i < |body| ==> !Overlaps(body[i], stocked[0].rect)
  {
    SpawnedIsFree(c, rng, body, pos);
  }

  /** The direction and the `_snake_moved` lock of the canonical game state. */
  datatype Heading = Heading(direction: Direction, locked: bool)

  /** `change_snake_direction(d)`: ignored while locked, otherwise taken and locked. */
  function Steer(h: Heading, d: Direction): (r: Heading)
    ensures r.locked
    ensures h.locked ==> r.direction == h.direction
  {
    if h.locked then h else Heading(d, true)
  }

  /** A run of direction changes between two ticks. */
  function SteerAll(h: Heading, ds: seq<Direction>): Heading
    decreases |ds|
  {
    if ds == [] then h else SteerAll(Steer(h, ds[0]), ds[1..])
  }

  /** Between two ticks the first requested direction wins and the rest are ignored. */
  lemma {:induction false} FirstChangeWins(h: Heading, ds: seq<Direction>)
    requires |ds| >= 1
    ensures !h.locked ==> SteerAll(h, ds) == Heading(ds[0], true)
    ensures h.locked ==> SteerAll(h, ds) == h
    decreases |ds|
  {
    LockedStays(Steer(h, ds[0]), ds[1..]);
  }

  lemma {:induction false} LockedStays(h: Heading, ds: seq<Direction>)
    requires h.locked
    ensures SteerAll(h, ds) == h
    decreases |ds|
  {
    if ds != [] {
      LockedStays(Steer(h, ds[0]), ds[1..]);
    }
  }

  /** The snek copy has no lock: the last requested direction wins. */
  function LastChange(current: Direction, ds: seq<Direction>): (d: Direction)
    ensures ds == [] ==> d == current
    ensures ds != [] ==> d == ds[|ds| - 1]
    decreases |ds|
  {
    if ds == [] then current else LastChange(ds[0], ds[1..])
  }
}
