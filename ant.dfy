/**
 * The ant of Langton's ant (src/pyretro/langtons_ant/ant.py and
 * enums.py): a heading stored as the integer 0..3 (UP, RIGHT, DOWN, LEFT)
 * and a `Coordinates` object that moving updates in place. The object is
 * held by reference, so ants built on one object move together.
 */
module LangtonsAnt {
  import opened PyInt

  /** The `Direction` enum. */
  datatype Direction = Up | Right | Down | Left {
    /** The enum's value. */
    function Value(): (v: int)
      ensures 0 <= v < 4
      ensures DirectionOf(v) == this
    {
      match this
      case Up => 0
      case Right => 1
      case Down => 2
      case Left => 3
    }
  }

  /** `Direction(v)` for a value the enum has. */
  function DirectionOf(v: int): (d: Direction)
    requires 0 <= v < 4
  {
    if v == 0 then Up else if v == 1 then Right else if v == 2 then Down else Left
  }

  /** `rotate_right` on the stored value: one quarter turn clockwise. */
  function TurnRight(v: int): (r: int)
    ensures 0 <= r < 4
    ensures 0 <= v < 4 ==> TurnLeft(r) == v
  {
    FloorMod(v + 1, 4)
  }

  /** `rotate_left` on the stored value: one quarter turn anticlockwise. */
  function TurnLeft(v: int): (r: int)
    ensures 0 <= v < 4 ==> 0 <= r < 4 && r == FloorMod(v + 3, 4)
  {
    if v - 1 < 0 then v - 1 + 4 else v - 1
  }

  /** Right after left also gets back where it started, and four turns either way are the identity. */
  lemma TurnsCancel(v: int)
    requires 0 <= v < 4
    ensures TurnRight(TurnLeft(v)) == v
    ensures TurnRight(TurnRight(TurnRight(TurnRight(v)))) == v
    ensures TurnLeft(TurnLeft(TurnLeft(TurnLeft(v)))) == v
  {
  }

  /** The turns of the enum itself: clockwise UP, RIGHT, DOWN, LEFT, and round again. */
  lemma TurnsOnDirections()
    ensures DirectionOf(TurnLeft(Up.Value())) == Left
    ensures DirectionOf(TurnRight(Up.Value())) == Right
    ensures DirectionOf(TurnRight(Left.Value())) == Up
    ensures DirectionOf(TurnLeft(Left.Value())) == Down
  {
  }

  /** A position as a value: the `Coordinates` fields at one moment. */
  datatype Cell = Cell(x: int, y: int)

  /** The position `amount` squares along `d`; y grows downwards. */
  function Moved(d: Direction, c: Cell, amount: int): (r: Cell)
    ensures d.Up? || d.Down? ==> r.x == c.x && (if d.Up? then r.y == c.y - amount else r.y == c.y + amount)
    ensures d.Left? || d.Right? ==> r.y == c.y && (if d.Left? then r.x == c.x - amount else r.x == c.x + amount)
  {
    match d
    case Up => Cell(c.x, c.y - amount)
    case Right => Cell(c.x + amount, c.y)
    case Down => Cell(c.x, c.y + amount)
    case Left => Cell(c.x - amount, c.y)
  }

  /** Two right turns face the opposite way, and a move there undoes a move. */
  lemma MoveBackUndoes(v: int, c: Cell, amount: int)
    requires 0 <= v < 4
    ensures Moved(DirectionOf(TurnRight(TurnRight(v))), Moved(DirectionOf(v), c, amount), amount) == c
  {
  }

  /** The `Coordinates` dataclass. */
  class Coordinates {
    var x: int
    var y: int

    constructor (x: int, y: int)
      ensures this.x == x && this.y == y
    {
      this.x := x;
      this.y := y;
    }

    /** The fields as a value. */
    function Value(): (c: Cell)
      reads this
      ensures c.x == x && c.y == y
    {
      Cell(x, y)
    }

    /**
     * `__eq__`: equal when the fields are, whether or not the objects are
     * the same.
     */
    function Equals(other: Coordinates): (b: bool)
      reads this, other
      ensures b <==> Value() == other.Value()
      ensures other == this ==> b
    {
      x == other.x && y == other.y
    }
  }

  /** The `Ant` class. */
  class Ant {
    /** `_size`, the side of a square in pixels. */
    const size: int
    /** `_coordinates`, shared with whoever passed it in. */
    const coordinates: Coordinates
    /** `_direction`, the enum's value. */
    var direction: int
    const color: string

    /** The stored heading is always one the enum has. */
    ghost predicate Valid()
      reads this
    {
      0 <= direction < 4
    }

    /** `Ant(size, coordinates, direction, color)`: the coordinates are kept, not copied. */
    constructor (size: int, coordinates: Coordinates, direction: Direction, color: string)
      ensures Valid()
      ensures this.size == size && this.coordinates == coordinates && this.color == color
      ensures Heading() == direction
    {
      this.size := size;
      this.coordinates := coordinates;
      this.direction := direction.Value();
      this.color := color;
    }

    /** The `direction` property. */
    function Heading(): (d: Direction)
      reads this
      requires Valid()
      ensures d.Value() == direction
    {
      DirectionOf(direction)
    }

    /** The `radius` property: half the size, rounded down. */
    function Radius(): (r: int)
      reads this
      ensures 2 * r <= size < 2 * r + 2
    {
      FloorDiv(size, 2)
    }

    /** The `center` property: the middle of the ant's square, in pixels. */
    function Center(): (c: Cell)
      reads this, coordinates
      ensures c.x - Radius() == coordinates.x * size && c.y - Radius() == coordinates.y * size
      ensures size > 0 ==> coordinates.x * size <= c.x < coordinates.x * size + size
      ensures size > 0 ==> coordinates.y * size <= c.y < coordinates.y * size + size
    {
      Cell(coordinates.x * size + FloorDiv(size, 2), coordinates.y * size + FloorDiv(size, 2))
    }

    /** `rotate_left()`. */
    method RotateLeft()
      requires Valid()
      modifies this
      ensures Valid() && direction == TurnLeft(old(direction))
    {
      direction := direction - 1;
      if direction < 0 {
        direction := direction + 4;
      }
    }

    /** `rotate_right()`. */
    method RotateRight()
      requires Valid()
      modifies this
      ensures Valid() && direction == TurnRight(old(direction))
    {
      direction := FloorMod(direction + 1, 4);
    }

    /**
     * `move(amount)`: the shared coordinates object moves `amount` squares
     * the way the ant faces.
     */
    method Move(amount: int)
      requires Valid()
      modifies coordinates
      ensures coordinates.Value() == Moved(Heading(), old(coordinates.Value()), amount)
    {
      var d := Heading();
      match d
      case Up => coordinates.y := coordinates.y - amount;
      case Right => coordinates.x := coordinates.x + amount;
      case Down => coordinates.y := coordinates.y + amount;
      case Left => coordinates.x := coordinates.x - amount;
    }
  }

  /**
   * The default `Coordinates(0, 0)` is built once, when `Ant.__init__` is
   * defined, so every ant that relies on it holds the same object: moving
   * one ant moves the others.
   */
  method DefaultIsShared(origin: Coordinates) returns (first: Ant, second: Ant)
    requires origin.Value() == Cell(0, 0)
    modifies origin
    ensures first.coordinates == second.coordinates == origin
    ensures first.Valid() && second.Valid() && first.Heading() == Up && second.Heading() == Up
    ensures second.coordinates.Value() == Cell(0, -1)
  {
    first := new Ant(8, origin, Up, "red");
    second := new Ant(8, origin, Up, "red");
    first.Move(1);
  }
}
