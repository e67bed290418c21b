/**
 * `SnakeGameModel` (src/pyretro/snake/model/__init__.py): the game without
 * states or events, driven by a controller. It differs from the canonical
 * game state in three ways: it starts without food, its food search only
 * rejects a location that is the corner of a segment, and the length below
 * which the snake keeps growing is fixed at 10.
 *
 * Its factories (src/pyretro/snake/model/sprites/factories.py) are not
 * part of this model. Only `player_init_pos` is taken from the older copy
 * (`LegacyFactories.PlayerInitPos`, which equals the canonical
 * `center_pos`). The food location is assumed to be drawn as the
 * canonical factory draws it, from `randint(0, grid - 1)`
 * (`Factories.CoordinateFactory.NewFoodLocation`): the older copy's
 * inclusive draw can put food off the grid (`LegacyFactories`), and with
 * it `FoodOnCells` in `SnakeGameModel.Valid` would not hold.
 */
module GameModel {
  import opened Wrappers
  import opened Structs
  import opened Sprites
  import opened Random
  import opened Factories
  import opened LegacyFactories
  import opened GameRules

  /** The length below which `update_sprite_coordinates` always grows the snake. */
  const AutoGrowUntil: int := 10

  /**
   * On a grid, a cell-sized food overlaps a snake made of cells exactly
   * when its corner is the corner of a segment, so `contains_top_left`
   * rejects the same locations as `collides_with_sprite`.
   */
  lemma TopLeftTestIsOverlapTest(c: CoordinateFactory, body: seq<Rect>, f: Food)
    requires c.Valid() && AllCells(c, body) && c.IsCell(f.rect)
    ensures HasTopLeft(body, f.rect.TopLeft()) <==> AnyOverlap(body, f.Rects())
  {
    forall i | 0 <= i < |body|
      ensures Overlaps(body[i], f.rect) <==> body[i].TopLeft() == f.rect.TopLeft()
    {
      AlignedOverlap(body[i], f.rect, c.unitSize);
    }
    assert f.Rects() == [f.rect];
  }

  /** `new_snake_food_location()` for candidate `n` of a search that started at draw `pos`. */
  method DrawLocation(c: CoordinateFactory, rng: Rng, ghost pos: nat, ghost n: nat) returns (p: Point)
    requires c.Valid() && rng.pos == pos + 2 * n
    modifies rng
    ensures CreateSnakeFood(c, p) == Candidate(c, rng, pos, n)
    ensures rng.pos == old(rng.pos) + 2
  {
    p := c.NewFoodLocation(rng);
    CandidateIsDrawn(c, rng, pos, n);
  }

  /** `contains_top_left` on the corner of candidate `n`. */
  method ProbeCorner(c: CoordinateFactory, rng: Rng, snake: Snake, ghost pos: nat, ghost n: nat, p: Point)
    returns (hit: bool)
    requires c.Valid() && AllCells(c, snake.rects) && CreateSnakeFood(c, p) == Candidate(c, rng, pos, n)
    ensures hit == Blocked(c, rng, snake.rects, pos, n)
  {
    CandidateIsCell(c, rng, pos, n);
    TopLeftTestIsOverlapTest(c, snake.rects, CreateSnakeFood(c, p));
    hit := snake.ContainsTopLeft(p);
  }

  /**
   * The model's rejection loop: redraw while the location is the corner
   * of a segment. On a snake made of cells it finds the same food, after
   * the same draws, as the canonical search.
   */
  method SpawnFoodByCorner(c: CoordinateFactory, rng: Rng, snake: Snake) returns (f: Option<Food>)
    requires c.Valid() && AllCells(c, snake.rects)
    modifies rng
    ensures f == Spawned(c, rng, snake.rects, old(rng.pos))
    ensures rng.pos == SpawnEnd(c, rng, snake.rects, old(rng.pos))
  {
    ghost var start := rng.pos;
    var p := DrawLocation(c, rng, start, 0);
    var redraws := 0;
    ghost var fuel := rng.redrawLimit;
    var hit := ProbeCorner(c, rng, snake, start, 0, p);
    while hit
      invariant redraws + fuel == rng.redrawLimit
      invariant rng.pos == start + 2 * redraws + 2
      invariant CreateSnakeFood(c, p) == Candidate(c, rng, start, redraws)
      invariant hit <==> Blocked(c, rng, snake.rects, start, redraws)
      invariant FirstFree(c, rng, snake.rects, start, 0, rng.redrawLimit)
                == FirstFree(c, rng, snake.rects, start, redraws, fuel)
      decreases fuel
    {
      if redraws == rng.redrawLimit {
        SearchGivesUp(c, rng, snake.rects, start, redraws);
        SpawnedBySearch(c, rng, snake.rects, start);
        return None;
      }
      SearchGoesOn(c, rng, snake.rects, start, redraws, fuel);
      redraws, fuel := redraws + 1, fuel - 1;
      p := DrawLocation(c, rng, start, redraws);
      hit := ProbeCorner(c, rng, snake, start, redraws, p);
    }
    SearchStops(c, rng, snake.rects, start, redraws, fuel);
    SpawnedBySearch(c, rng, snake.rects, start);
    f := Some(CreateSnakeFood(c, p));
  }

  /** With the fixed growth length a move always has two segments to work with. */
  lemma ModelNeverCrashes(c: CoordinateFactory, rng: Rng, body: seq<Rect>, food: seq<Food>, d: Direction, pos: nat)
    requires c.Valid() && |body| >= 1
    ensures !TickOf(c, AutoGrowUntil, rng, body, food, d, pos).Crashed?
  {
  }

  class SnakeGameModel {
    const coords: CoordinateFactory
    const snake: Snake
    var food: seq<Food>
    /** `current_movement_direction`, which the controller sets directly. */
    var direction: Direction

    /** Every segment and every food is a cell of the grid. */
    ghost predicate Valid()
      reads this, snake
    {
      && coords.Valid()
      && snake.Valid()
      && AllCells(coords, snake.rects)
      && FoodOnCells(coords, food)
    }

    /** `SnakeGameModel(settings)`: one segment at `player_init_pos`, no food, heading up. */
    constructor (settings: GameSettings)
      ensures coords == FactoryOf(settings) && fresh(snake)
      ensures snake.rects == [CreateSnakeRect(coords, PlayerInitPos(coords))]
      ensures food == [] && direction == Up
      ensures Playable(settings) ==> Valid()
    {
      var c := FactoryOf(settings);
      coords := c;
      direction := Up;
      var body := CreateSnake(c);
      snake := body;
      food := [];
    }

    /** `sprites`: the food, then the snake, which is drawn last. */
    function Sprites(): (s: seq<Sprite>)
      reads this, snake
      ensures |s| == |food| + 1
      ensures s[|food|] == Sprite(SnakeKind, snake.rects)
      ensures forall i :: 0 <= i < |food| ==> s[i] == FoodSprite(food[i])
    {
      var fs := food;
      seq(|fs|, i requires 0 <= i < |fs| => FoodSprite(fs[i])) + [Sprite(SnakeKind, snake.rects)]
    }

    /** `pop_found_snake_food()`: the food the head finds is removed and returned. */
    method PopFoundSnakeFood() returns (popped: seq<Food>)
      requires Valid()
      modifies this
      ensures Valid()
      ensures popped == FoundBy(snake.Head(), old(food)) && food == MissedBy(snake.Head(), old(food))
      ensures multiset(popped + food) == multiset(old(food))
      ensures direction == old(direction)
    {
      var remaining;
      popped, remaining := SplitFood(snake, food);
      SplitIsPermutation(snake.Head(), food);
      MissedStaysOnCells(coords, snake.Head(), food);
      food := remaining;
    }

    /**
     * `add_snake_food()`: one food whose corner is no segment's corner,
     * and which therefore overlaps no segment, is appended.
     */
    method AddSnakeFood(rng: Rng) returns (placed: bool)
      requires Valid()
      modifies this, rng
      ensures Valid()
      ensures placed <==> Spawned(coords, rng, snake.rects, old(rng.pos)).Some?
      ensures placed ==> food == old(food) + [Spawned(coords, rng, snake.rects, old(rng.pos)).value]
      ensures !placed ==> food == old(food)
      ensures rng.pos == SpawnEnd(coords, rng, snake.rects, old(rng.pos))
      ensures direction == old(direction)
    {
      var f := SpawnFoodByCorner(coords, rng, snake);
      SpawnedIsFree(coords, rng, snake.rects, old(rng.pos));
      if f.None? {
        return false;
      }
      food := food + [f.value];
      placed := true;
    }

    /** `get_movement_coordinates()`: the neighbouring cell in the current direction. */
    function GetMovementCoordinates(): (p: Point)
      reads this, snake
      requires Valid()
      ensures p == coords.Step(direction, snake.Head())
      ensures coords.OnGrid(p)
    {
      coords.StepStaysOnGrid(direction, snake.Head());
      coords.Step(direction, snake.Head())
    }

    /** The grow-or-move half of `update_sprite_coordinates()`; no collision is signalled. */
    method AdvanceSnake(ate: bool)
      requires Valid()
      modifies snake
      ensures Valid()
      ensures var a := Advance(coords, AutoGrowUntil, old(snake.rects), ate, direction);
              a.Some? && snake.rects == a.value
    {
      AdvanceStaysOnGrid(coords, AutoGrowUntil, snake.rects, ate, direction);
      var p := GetMovementCoordinates();
      if ate || snake.Len() < AutoGrowUntil {
        snake.Grow(p);
      } else {
        snake.Move(p);
      }
    }

    /** The first half of `update_sprite_coordinates()`: food is added when there is none. */
    method Restock(rng: Rng) returns (stuck: bool)
      requires Valid()
      modifies this, rng
      ensures Valid() && direction == old(direction)
      ensures stuck <==> old(food) == [] && Spawned(coords, rng, snake.rects, old(rng.pos)).None?
      ensures stuck ==> food == old(food)
      ensures !stuck ==> food == Stocked(coords, rng, snake.rects, old(food), old(rng.pos))
      ensures rng.pos == if old(food) == [] then SpawnEnd(coords, rng, snake.rects, old(rng.pos)) else old(rng.pos)
    {
      stuck := false;
      if food == [] {
        var placed := AddSnakeFood(rng);
        stuck := !placed;
      }
    }

    /** The second half: the food found is eaten, then the snake grows or moves. */
    method EatAndAdvance()
      requires Valid()
      modifies this, snake
      ensures Valid() && direction == old(direction)
      ensures food == MissedBy(old(snake.rects)[0], old(food))
      ensures var a := Advance(coords, AutoGrowUntil, old(snake.rects), FoundBy(old(snake.rects)[0], old(food)) != [],
                               direction);
              a.Some? && snake.rects == a.value
    {
      var found := PopFoundSnakeFood();
      AdvanceSnake(found != []);
    }

    /**
     * `update_sprite_coordinates()`: one tick with the growth length fixed
     * at 10. Only the food search can fail.
     */
    method UpdateSpriteCoordinates(rng: Rng) returns (failure: Option<Failure>)
      requires Valid()
      modifies this, snake, rng
      ensures Valid()
      ensures var t := TickOf(coords, AutoGrowUntil, rng, old(snake.rects), old(food), old(direction),
                              old(rng.pos));
              && rng.pos == t.pos && direction == old(direction) && !t.Crashed?
              && (t.Ticked? ==> failure.None? && snake.rects == t.body && food == t.food)
              && (t.Stuck? ==> failure == Some(Hung) && snake.rects == old(snake.rects) && food == old(food))
    {
      ModelNeverCrashes(coords, rng, snake.rects, food, direction, rng.pos);
      var stuck := Restock(rng);
      if stuck {
        return Some(Hung);
      }
      EatAndAdvance();
      failure := None;
    }
  }
}
