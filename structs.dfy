/**
 * Value records of the snake game: pixel points, sizes, the four movement
 * directions and the per-session settings (src/pyretro/snake/structs.py).
 */
module Structs {

  /** An integer pixel coordinate. */
  datatype Point = Point(x: int, y: int) {

    /** `p + q`: componentwise sum. */
    function Add(other: Point): Point {
      Point(x + other.x, y + other.y)
    }

    /** `other + p` when the left operand does not know how to add (`__radd__`). */
    function RAdd(other: Point): Point {
      Point(other.x + x, other.y + y)
    }

    /** `p - q`: componentwise difference. */
    function Sub(other: Point): Point {
      Point(x - other.x, y - other.y)
    }

    /** `other - p` via `__rsub__`. */
    function RSub(other: Point): Point {
      Point(other.x - x, other.y - y)
    }

    function ToTuple(): (int, int) {
      (x, y)
    }
  }

  /** An integer extent: a cell size in pixels or a grid size in cells. */
  datatype Size = Size(width: int, height: int) {

    /** `s * t`: width times width and height times height. */
    function Mul(other: Size): Size {
      Size(width * other.width, height * other.height)
    }

    function ToTuple(): (int, int) {
      (width, height)
    }
  }

  /** The snake's heading. */
  datatype Direction = Up | Down | Left | Right

  /** Number of segments below which every tick grows the snake. */
  const DefaultAutoGrowUntil: int := 10

  /**
   * The settings a state needs: cell size, grid size and the growth
   * threshold. Colours are rendering data and are not part of the model.
   */
  datatype GameSettings = GameSettings(unitSize: Size, gridSize: Size, autoGrowUntil: int)

  /** A settings record built without naming `auto_grow_until`. */
  function DefaultSettings(unitSize: Size, gridSize: Size): (s: GameSettings)
    ensures s.unitSize == unitSize && s.gridSize == gridSize
    ensures s.autoGrowUntil == 10
  {
    GameSettings(unitSize, gridSize, DefaultAutoGrowUntil)
  }

  /** The keyword arguments the `GameSettings` dataclass accepts: its fields. */
  const SettingsFields: set<string> :=
    {"unit_size", "grid_size", "snake_colors", "snake_food_colors", "game_background_color",
     "menu_background_color", "game_over_background_color", "auto_grow_until"}

  /** What a `GameSettings(...)` call gives: the settings, or the TypeError it raises. */
  datatype Construction = Built(settings: GameSettings) | TypeError

  /**
   * `GameSettings(**kwargs)` with keyword names `keywords`; `autoGrowUntil`
   * is the value passed for `auto_grow_until` when it is named. The
   * dataclass constructor raises TypeError on a name that is no field and
   * on a missing field that has no default.
   */
  function Construct(keywords: set<string>, unitSize: Size, gridSize: Size, autoGrowUntil: int): Construction {
    if SettingsFields - {"auto_grow_until"} <= keywords <= SettingsFields then
      Built(GameSettings(unitSize, gridSize,
                         if "auto_grow_until" in keywords then autoGrowUntil else DefaultAutoGrowUntil))
    else TypeError
  }

  /** The keywords `DEFAULT_GAME_SETTINGS` is built with, `speed` among them. */
  const ShippedKeywords: set<string> :=
    {"unit_size", "grid_size", "speed", "snake_colors", "snake_food_colors", "game_background_color",
     "menu_background_color", "game_over_background_color"}

  /** As written, building `DEFAULT_GAME_SETTINGS` raises TypeError: `speed` is no field. */
  lemma ShippedSettingsRaise()
    ensures "speed" in ShippedKeywords && "speed" !in SettingsFields
    ensures forall a :: Construct(ShippedKeywords, Size(20, 20), Size(20, 20), a) == TypeError
  {
  }

  /** `DEFAULT_GAME_SETTINGS` without `speed`: 20-pixel cells on a 20 by 20 grid. */
  const DefaultGameSettings: GameSettings := DefaultSettings(Size(20, 20), Size(20, 20))

  /** Without `speed`, the shipped call builds settings that are playable. */
  lemma DefaultGameSettingsPlayable()
    ensures forall a :: Construct(ShippedKeywords - {"speed"}, Size(20, 20), Size(20, 20), a)
                        == Built(DefaultGameSettings)
    ensures Playable(DefaultGameSettings)
    ensures DefaultGameSettings.autoGrowUntil == 10
  {
  }

  /**
   * Settings whose grid can be played on: positive cells and grid, so that
   * `%` by the screen size and `randint(0, grid - 1)` are defined.
   */
  predicate Playable(s: GameSettings) {
    && s.unitSize.width > 0 && s.unitSize.height > 0
    && s.gridSize.width > 0 && s.gridSize.height > 0
  }

  lemma AddThenSub(p: Point, q: Point)
    ensures p.Add(q).Sub(q) == p && p.Sub(q).Add(q) == p
  {
  }

  lemma ReflectedOperators(p: Point, q: Point)
    ensures p.RAdd(q) == q.Add(p) && p.RAdd(q) == p.Add(q)
    ensures p.RSub(q) == q.Sub(p)
  {
  }

  lemma ToTupleRoundTrip(p: Point, s: Size)
    ensures Point(p.ToTuple().0, p.ToTuple().1) == p
    ensures Size(s.ToTuple().0, s.ToTuple().1) == s
  {
  }

  lemma MulComponentwise(s: Size, t: Size)
    ensures s.Mul(t).width == s.width * t.width
    ensures s.Mul(t).height == s.height * t.height
    ensures s.Mul(t) == t.Mul(s)
  {
  }
}
