/**
 * The coordinate and sprite factories (src/pyretro/snake/factories.py):
 * screen size, the centre cell, random food cells and the four wrapping
 * moves of the head.
 */
module Factories {
  import opened Structs
  import opened PyInt
  import opened Sprites
  import opened Random

  /** Coordinate `v` is the corner of one of the `n` cells of width `u` on an axis. */
  predicate OnAxis(v: int, u: int, n: int)
    requires u > 0
  {
    0 <= v < u * n && v % u == 0
  }

  lemma {:induction false} MultipleMod(u: int, i: int)
    requires u > 0
    ensures (u * i) % u == 0
  {
    FloorModUnique(u * i, i, 0, u);
    FloorModPositive(u * i, u);
  }

  /** The corner of cell `i` lies on the axis exactly when `i` is a cell index. */
  lemma {:induction false} CellOnAxis(i: int, u: int, n: int)
    requires u > 0
    ensures OnAxis(u * i, u, n) <==> 0 <= i < n
  {
    MultipleMod(u, i);
    if 0 <= i < n {
      assert u * n - u * i == u * (n - i);
      assert u * (n - i) > 0;
    } else if i < 0 {
      assert u * i == -(u * (-i));
      assert u * (-i) > 0;
    } else {
      assert u * i - u * n == u * (i - n);
      assert u * (i - n) >= 0;
    }
  }

  /** Every corner on the axis is the corner of exactly one cell. */
  lemma {:induction false} AxisCell(v: int, u: int, n: int)
    requires u > 0 && OnAxis(v, u, n)
    ensures v == u * (v / u) && 0 <= v / u < n
  {
    CellOnAxis(v / u, u, n);
  }

  /** A cell whose corner is on the axis ends within the axis. */
  lemma {:induction false} AxisEnd(v: int, u: int, n: int)
    requires u > 0 && OnAxis(v, u, n)
    ensures v + u <= u * n
  {
    AxisCell(v, u, n);
    var k := n - v / u - 1;
    assert u * n - (v + u) == u * k;
    assert k >= 0;
  }

  /** A step of one cell with wrap-around keeps a corner on the axis. */
  lemma {:induction false} StepOnAxis(v: int, d: int, u: int, n: int)
    requires u > 0 && n > 0 && OnAxis(v, u, n)
    requires d == u || d == -u
    ensures OnAxis(FloorMod(v + d, u * n), u, n)
  {
    var w := u * n;
    assert w > 0;
    var a, q := v / u, FloorDiv(v + d, w);
    var b := if d == u then 1 else -1;
    assert v == u * a;
    assert d == u * b;
    var m := FloorMod(v + d, w);
    assert m == v + d - w * q;
    assert m == u * (a + b - n * q) by {
      assert w * q == u * (n * q);
      assert u * (a + b - n * q) == u * a + u * b - u * (n * q);
    }
    MultipleMod(u, a + b - n * q);
  }

  /** Stepping by `d` and then by `-d` with wrap-around returns to any in-range coordinate. */
  lemma {:induction false} StepBack(v: int, d: int, w: int)
    requires 0 <= v < w
    ensures FloorMod(FloorMod(v + d, w) - d, w) == v
  {
    var q := FloorDiv(v + d, w);
    assert FloorMod(v + d, w) - d == v + w * (-q);
    FloorModShift(v, -q, w);
    FloorModUnique(v, 0, v, w);
  }

  /** `SnakeCoordinateFactory(unit_size, grid_n)`. */
  datatype CoordinateFactory = CoordinateFactory(unitSize: Size, gridSize: Size) {

    /** The factory describes a non-empty grid of non-empty cells. */
    predicate Valid() {
      unitSize.width > 0 && unitSize.height > 0 && gridSize.width > 0 && gridSize.height > 0
    }

    /** `screen_size`: cell size times cell count, per axis. */
    function ScreenSize(): (s: Size)
      ensures Valid() ==> s.width > 0 && s.height > 0
      ensures Valid() ==> s.width >= unitSize.width && s.height >= unitSize.height
    {
      var s := unitSize.Mul(gridSize);
      assert Valid() ==> s.width - unitSize.width == unitSize.width * (gridSize.width - 1);
      assert Valid() ==> s.height - unitSize.height == unitSize.height * (gridSize.height - 1);
      s
    }

    /** The point is the top-left corner of a cell of the grid. */
    predicate OnGrid(p: Point)
      requires Valid()
    {
      OnAxis(p.x, unitSize.width, gridSize.width) && OnAxis(p.y, unitSize.height, gridSize.height)
    }

    /** The top-left corner of cell `(i, j)`. */
    function CellCorner(i: int, j: int): (p: Point)
      ensures Valid() ==> (OnGrid(p) <==> 0 <= i < gridSize.width && 0 <= j < gridSize.height)
    {
      var p := Point(unitSize.width * i, unitSize.height * j);
      if Valid() then
        CellOnAxis(i, unitSize.width, gridSize.width);
        CellOnAxis(j, unitSize.height, gridSize.height);
        p
      else p
    }

    /** Every corner on the grid is the corner of the cell it names. */
    lemma OnGridIsCellCorner(p: Point)
      requires Valid() && OnGrid(p)
      ensures p == CellCorner(p.x / unitSize.width, p.y / unitSize.height)
      ensures 0 <= p.x / unitSize.width < gridSize.width
      ensures 0 <= p.y / unitSize.height < gridSize.height
    {
      AxisCell(p.x, unitSize.width, gridSize.width);
      AxisCell(p.y, unitSize.height, gridSize.height);
    }

    /** `center_pos`: the corner of the middle cell (`grid // 2` on each axis). */
    function CenterPos(): (p: Point)
      ensures p == CellCorner(FloorDiv(gridSize.width, 2), FloorDiv(gridSize.height, 2))
      ensures Valid() ==> OnGrid(p)
    {
      CellCorner(FloorDiv(gridSize.width, 2), FloorDiv(gridSize.height, 2))
    }

    /**
     * `new_snake_food_location()`: a random cell `randint(0, grid - 1)` per
     * axis, x drawn first; an empty grid raises, so one cell is required.
     */
    method NewFoodLocation(rng: Rng) returns (p: Point)
      requires gridSize.width >= 1 && gridSize.height >= 1
      modifies rng
      ensures rng.pos == old(rng.pos) + 2
      ensures p == CellCorner(rng.At(old(rng.pos), 0, gridSize.width - 1),
                              rng.At(old(rng.pos) + 1, 0, gridSize.height - 1))
      ensures Valid() ==> OnGrid(p)
    {
      var i := rng.RandInt(0, gridSize.width - 1);
      var j := rng.RandInt(0, gridSize.height - 1);
      p := Point(i * unitSize.width, j * unitSize.height);
      assert p == CellCorner(i, j);
    }

    /** `get_move_left_coordinates(rect)`: one rect width to the left, wrapping. */
    function MoveLeft(r: Rect): (p: Point)
      requires ScreenSize().width != 0
      ensures p.y == r.y
      ensures ScreenSize().width > 0 ==> 0 <= p.x < ScreenSize().width
    {
      Point(FloorMod(r.x - r.width, ScreenSize().width), r.y)
    }

    /** `get_move_right_coordinates(rect)`: one rect width to the right, wrapping. */
    function MoveRight(r: Rect): (p: Point)
      requires ScreenSize().width != 0
      ensures p.y == r.y
      ensures ScreenSize().width > 0 ==> 0 <= p.x < ScreenSize().width
    {
      Point(FloorMod(r.x + r.width, ScreenSize().width), r.y)
    }

    /** `get_move_up_coordinates(rect)`: one rect height up, wrapping. */
    function MoveUp(r: Rect): (p: Point)
      requires ScreenSize().height != 0
      ensures p.x == r.x
      ensures ScreenSize().height > 0 ==> 0 <= p.y < ScreenSize().height
    {
      Point(r.x, FloorMod(r.y - r.height, ScreenSize().height))
    }

    /** `get_move_down_coordinates(rect)`: one rect height down, wrapping. */
    function MoveDown(r: Rect): (p: Point)
      requires ScreenSize().height != 0
      ensures p.x == r.x
      ensures ScreenSize().height > 0 ==> 0 <= p.y < ScreenSize().height
    {
      Point(r.x, FloorMod(r.y + r.height, ScreenSize().height))
    }

    /** `get_movement_coordinates`: the move that the direction selects. */
    function Step(d: Direction, r: Rect): (p: Point)
      requires ScreenSize().width != 0 && ScreenSize().height != 0
      ensures d == Up || d == Down ==> p.x == r.x
      ensures d == Left || d == Right ==> p.y == r.y
    {
      match d
      case Up => MoveUp(r)
      case Down => MoveDown(r)
      case Left => MoveLeft(r)
      case Right => MoveRight(r)
    }

    /** A cell-sized rectangle whose corner is on the grid. */
    predicate IsCell(r: Rect)
      requires Valid()
    {
      r.Dimensions() == unitSize && OnGrid(r.TopLeft())
    }

    /** A step of a cell-sized head lands on a neighbouring cell of the grid. */
    lemma StepStaysOnGrid(d: Direction, r: Rect)
      requires Valid() && IsCell(r)
      ensures OnGrid(Step(d, r))
    {
      var s := ScreenSize();
      match d
      case Up => StepOnAxis(r.y, -unitSize.height, unitSize.height, gridSize.height);
      case Down => StepOnAxis(r.y, unitSize.height, unitSize.height, gridSize.height);
      case Left => StepOnAxis(r.x, -unitSize.width, unitSize.width, gridSize.width);
      case Right => StepOnAxis(r.x, unitSize.width, unitSize.width, gridSize.width);
    }

    /** Moving right and then left (or down and then up) is the identity on screen. */
    lemma OppositeStepsCancel(r: Rect)
      requires Valid()
      requires 0 <= r.x < ScreenSize().width && 0 <= r.y < ScreenSize().height
      ensures MoveLeft(Rect(MoveRight(r).x, r.y, r.width, r.height)) == r.TopLeft()
      ensures MoveRight(Rect(MoveLeft(r).x, r.y, r.width, r.height)) == r.TopLeft()
      ensures MoveUp(Rect(r.x, MoveDown(r).y, r.width, r.height)) == r.TopLeft()
      ensures MoveDown(Rect(r.x, MoveUp(r).y, r.width, r.height)) == r.TopLeft()
    {
      var s := ScreenSize();
      StepBack(r.x, r.width, s.width);
      StepBack(r.x, -r.width, s.width);
      StepBack(r.y, r.height, s.height);
      StepBack(r.y, -r.height, s.height);
    }
  }

  /** Wrap-around on a 5 by 5 grid of 20-pixel cells (a 100-pixel screen). */
  lemma WrapExamples()
    ensures CoordinateFactory(Size(20, 20), Size(5, 5)).MoveLeft(Rect(0, 50, 20, 20)) == Point(80, 50)
    ensures CoordinateFactory(Size(20, 20), Size(5, 5)).MoveDown(Rect(50, 100, 20, 20)) == Point(50, 20)
    ensures CoordinateFactory(Size(20, 20), Size(5, 5)).MoveUp(Rect(50, 0, 20, 20)) == Point(50, 80)
  {
    FloorModUnique(-20, -1, 80, 100);
    FloorModUnique(120, 1, 20, 100);
  }

  /** `SnakeSpriteFactory._create_snake_rect(p)`: a cell-sized rect at `p`. */
  function CreateSnakeRect(c: CoordinateFactory, p: Point): (r: Rect)
    ensures r.TopLeft() == p && r.Dimensions() == c.unitSize
  {
    FromStructs(p, c.unitSize)
  }

  /** `create_snake_food(top_left)`. */
  function CreateSnakeFood(c: CoordinateFactory, p: Point): (f: Food)
    ensures f.rect.TopLeft() == p && f.rect.Dimensions() == c.unitSize
    ensures c.Valid() && c.OnGrid(p) ==> c.IsCell(f.rect)
  {
    Food(CreateSnakeRect(c, p))
  }

  /** `create_snake()`: a one-segment snake in the centre cell. */
  method CreateSnake(c: CoordinateFactory) returns (s: Snake)
    ensures fresh(s) && s.Valid()
    ensures s.rects == [CreateSnakeRect(c, c.CenterPos())]
    ensures c.Valid() ==> c.IsCell(s.Head())
  {
    s := new Snake(CreateSnakeRect(c, c.CenterPos()));
  }
}
