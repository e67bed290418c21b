/**
 * The board of Langton's ant (src/pyretro/langtons_ant/grid.py): a
 * square numpy array of colours, all white at first, and an ant that on
 * each step turns right on a white square or left on a black one, flips
 * the square's colour and moves one square on. Nothing keeps the ant on
 * the board: numpy reads an index `i` on an axis of length `n` when
 * `-n <= i < n`, counting a negative one from the end, and raises
 * IndexError for any other.
 */
module AntGrid {
  import opened Wrappers
  import opened LangtonsAnt

  /** The `SquareColor` enum. */
  datatype SquareColor = White | Black

  /** `GridSpec(square_n, grid_n)`: square side in pixels and squares per side. */
  datatype GridSpec = GridSpec(squareN: int, gridN: int) {
    /** `square_size`: a square's side, both ways. */
    function SquareSize(): (s: (int, int))
      ensures s.0 == s.1 == squareN
    {
      (squareN, squareN)
    }

    /** `grid_size`: the board's side in squares, both ways. */
    function GridSize(): (s: (int, int))
      ensures s.0 == s.1 == gridN
    {
      (gridN, gridN)
    }
  }

  /** numpy's reading of index `i` on an axis of length `n`. */
  function AxisIndex(i: int, n: int): (r: Option<int>)
    ensures r.Some? <==> -n <= i < n
    ensures r.Some? ==> 0 <= r.value < n && (i < 0 ==> r.value == i + n) && (0 <= i ==> r.value == i)
  {
    if 0 <= i < n then Some(i)
    else if -n <= i < 0 then Some(i + n)
    else None
  }

  /** The array square `arr[x, y]` reads, or `None` for IndexError. */
  function SquareAt(c: Cell, n: int): (r: Option<(int, int)>)
    ensures r.Some? <==> -n <= c.x < n && -n <= c.y < n
    ensures r.Some? ==> 0 <= r.value.0 < n && 0 <= r.value.1 < n
  {
    var i, j := AxisIndex(c.x, n), AxisIndex(c.y, n);
    if i.Some? && j.Some? then Some((i.value, j.value)) else None
  }

  /**
   * The automaton as a value: board side, black squares, the ant's
   * position and its stored heading.
   */
  datatype World = World(n: int, black: set<(int, int)>, pos: Cell, direction: int)

  /**
   * One `move_ant`: turn right on white and paint black, or turn left on
   * black and paint white, then step one square the new way. `None` is
   * IndexError, when the ant is off the board.
   */
  function Step(w: World): (r: Option<World>)
    requires 0 <= w.direction < 4
    ensures r.Some? <==> SquareAt(w.pos, w.n).Some?
    ensures r.Some? ==> r.value.n == w.n && 0 <= r.value.direction < 4
  {
    match SquareAt(w.pos, w.n)
    case None => None
    case Some(sq) =>
      var d := if sq in w.black then TurnLeft(w.direction) else TurnRight(w.direction);
      var black := if sq in w.black then w.black - {sq} else w.black + {sq};
      Some(World(w.n, black, Moved(DirectionOf(d), w.pos, 1), d))
  }

  /**
   * The step run backwards: step back against the heading, then the
   * square's new colour says which way the ant turned and what it was.
   */
  function Unstep(w: World): (r: Option<World>)
    requires 0 <= w.direction < 4
  {
    var back := Moved(DirectionOf(w.direction), w.pos, -1);
    match SquareAt(back, w.n)
    case None => None
    case Some(sq) =>
      if sq in w.black then Some(World(w.n, w.black - {sq}, back, TurnLeft(w.direction)))
      else Some(World(w.n, w.black + {sq}, back, TurnRight(w.direction)))
  }

  /** A step loses nothing: undoing it gives back the world before it. */
  lemma StepIsReversible(w: World)
    requires 0 <= w.direction < 4
    ensures Step(w).Some? ==> Unstep(Step(w).value) == Some(w)
  {
    if Step(w).Some? {
      var sq := SquareAt(w.pos, w.n).value;
      var after := Step(w).value;
      assert Moved(DirectionOf(after.direction), after.pos, -1) == w.pos;
      if sq in w.black {
        assert after.black + {sq} == w.black;
      } else {
        assert after.black - {sq} == w.black;
      }
    }
  }

  /**
   * A step changes the colour of exactly one square, the one the ant
   * stood on, and turns the ant right exactly when that square was white.
   */
  lemma StepFlipsOneSquare(w: World)
    requires 0 <= w.direction < 4 && SquareAt(w.pos, w.n).Some?
    ensures var sq, after := SquareAt(w.pos, w.n).value, Step(w).value;
            && (sq in after.black <==> sq !in w.black)
            && (forall p :: p != sq ==> (p in after.black <==> p in w.black))
            && (sq !in w.black <==> after.direction == TurnRight(w.direction))
            && after.pos == Moved(DirectionOf(after.direction), w.pos, 1)
  {
    var sq := SquareAt(w.pos, w.n).value;
    if sq in w.black {
      assert TurnLeft(w.direction) != TurnRight(w.direction);
    }
  }

  /** Scaling by a positive side and dividing by it again gives the index back, with nothing left over. */
  lemma ScaleDivides(a: int, m: int)
    requires m > 0
    ensures (a * m) / m == a && (a * m) % m == 0
  {
    var q, r := (a * m) / m, (a * m) % m;
    assert m * (a - q) == r by {
      assert a * m == m * q + r;
    }
    assert a - q >= 1 ==> m * (a - q) >= m * 1;
    assert a - q <= -1 ==> m * (a - q) <= m * -1;
  }

  /** The `Grid` class: the ant and its board. */
  class Grid {
    const ant: Ant
    const spec: GridSpec
    /** `_arr`, indexed `[x, y]`. */
    const arr: array2<SquareColor>

    /** The board is `grid_n` by `grid_n` and the ant faces a real direction. */
    ghost predicate Valid()
      reads this, ant
    {
      && ant.Valid()
      && arr.Length0 == spec.gridN && arr.Length1 == spec.gridN
    }

    /** The black squares of the board. */
    ghost function BlackSquares(): set<(int, int)>
      reads this, arr
    {
      set i, j | 0 <= i < arr.Length0 && 0 <= j < arr.Length1 && arr[i, j] == Black :: (i, j)
    }

    /** The grid as a `World`. */
    ghost function State(): World
      reads this, arr, ant, ant.coordinates
    {
      World(spec.gridN, BlackSquares(), ant.coordinates.Value(), ant.direction)
    }

    /** `Grid(ant, grid_spec)`: a board of white squares; `np.full` rejects a negative side. */
    constructor (ant: Ant, spec: GridSpec)
      requires spec.gridN >= 0 && ant.Valid()
      ensures this.ant == ant && this.spec == spec && fresh(arr)
      ensures Valid()
      ensures forall i, j :: 0 <= i < spec.gridN && 0 <= j < spec.gridN ==> arr[i, j] == White
      ensures BlackSquares() == {}
    {
      this.ant := ant;
      this.spec := spec;
      arr := new SquareColor[spec.gridN, spec.gridN]((i, j) => White);
    }

    /**
     * `move_ant()`: one step of the automaton on the board in place;
     * IndexError, before anything changes, when the ant is off the board.
     */
    method MoveAnt() returns (indexError: bool)
      requires Valid()
      modifies arr, ant, ant.coordinates
      ensures Valid()
      ensures indexError <==> Step(old(State())).None?
      ensures !indexError ==> State() == Step(old(State())).value
      ensures indexError ==> unchanged(arr) && unchanged(ant) && unchanged(ant.coordinates)
      ensures !indexError ==>
                var sq := SquareAt(old(ant.coordinates.Value()), spec.gridN).value;
                forall i, j :: 0 <= i < arr.Length0 && 0 <= j < arr.Length1 && (i, j) != sq ==>
                  arr[i, j] == old(arr[i, j])
    {
      var square := SquareAt(ant.coordinates.Value(), spec.gridN);
      if square.None? {
        return true;
      }
      var (i, j) := square.value;
      ghost var before := BlackSquares();
      if arr[i, j] == White {
        ant.RotateRight();
        arr[i, j] := Black;
        PaintedBlack(before, i, j);
      } else {
        ant.RotateLeft();
        arr[i, j] := White;
        PaintedWhite(before, i, j);
      }
      ant.Move(1);
      indexError := false;
    }

    /** After painting square `(i, j)` black, the black squares gain exactly it. */
    lemma PaintedBlack(before: set<(int, int)>, i: int, j: int)
      requires 0 <= i < arr.Length0 && 0 <= j < arr.Length1 && arr[i, j] == Black
      requires forall p :: p != (i, j) ==> (p in before <==> p in BlackSquares())
      ensures BlackSquares() == before + {(i, j)}
    {
    }

    /** After painting square `(i, j)` white, the black squares lose exactly it. */
    lemma PaintedWhite(before: set<(int, int)>, i: int, j: int)
      requires 0 <= i < arr.Length0 && 0 <= j < arr.Length1 && arr[i, j] == White
      requires forall p :: p != (i, j) ==> (p in before <==> p in BlackSquares())
      ensures BlackSquares() == before - {(i, j)}
    {
    }

    /**
     * `get_color((x, y))`: the colour's name, or `None` for IndexError;
     * "black" exactly when the square is one of the black squares.
     */
    function GetColor(x: int, y: int): (r: Option<string>)
      reads this, arr
      requires arr.Length0 == arr.Length1 == spec.gridN
      ensures r.Some? <==> SquareAt(Cell(x, y), spec.gridN).Some?
      ensures r.Some? ==> r.value in {"white", "black"}
      ensures r.Some? ==> (r.value == "black" <==> SquareAt(Cell(x, y), spec.gridN).value in BlackSquares())
    {
      match SquareAt(Cell(x, y), spec.gridN)
      case None => None
      case Some(sq) =>
        if arr[sq.0, sq.1] == White then Some("white") else Some("black")
    }

    /**
     * `get_pixel_coordinates(c)`: the square's top-left pixel, from which
     * division by the square side gives the square back.
     */
    function GetPixelCoordinates(c: Coordinates): (p: Cell)
      reads c
      ensures spec.squareN > 0 ==> p.x / spec.squareN == c.x && p.y / spec.squareN == c.y
      ensures spec.squareN > 0 ==> p.x % spec.squareN == 0 && p.y % spec.squareN == 0
    {
      var (xMul, yMul) := spec.SquareSize();
      var p := Cell(c.x * xMul, c.y * yMul);
      if spec.squareN > 0 then
        ScaleDivides(c.x, spec.squareN);
        ScaleDivides(c.y, spec.squareN);
        p
      else
        p
    }
  }
}
