/**
 * The factories of the older copy (src/snake/model/sprites/factories.py).
 * Its screen size, wrap-around moves and sprite factory are those of the
 * canonical `Factories.CoordinateFactory`; it differs in the name of the
 * centre position and in how it draws a food location: indices are drawn
 * from `randint(0, grid)`, whose upper bound is inclusive.
 */
module LegacyFactories {
  import opened Structs
  import opened PyInt
  import opened Sprites
  import opened Random
  import opened Factories
  import opened GameRules

  /** `player_init_pos`: the corner of the middle cell, which is the canonical `center_pos`. */
  function PlayerInitPos(c: CoordinateFactory): (p: Point)
    ensures p == c.CenterPos()
    ensures c.Valid() ==> c.OnGrid(p)
  {
    Point(c.unitSize.width * FloorDiv(c.gridSize.width, 2), c.unitSize.height * FloorDiv(c.gridSize.height, 2))
  }

  /**
   * `new_snake_food_location()` as written: cell indices from
   * `randint(0, grid)`, so the corner may lie one cell past the last
   * column or row, on the screen's right or bottom edge.
   */
  method NewFoodLocationAsWritten(c: CoordinateFactory, rng: Rng) returns (p: Point)
    requires c.gridSize.width >= 0 && c.gridSize.height >= 0
    modifies rng
    ensures rng.pos == old(rng.pos) + 2
    ensures p == c.CellCorner(rng.At(old(rng.pos), 0, c.gridSize.width),
                              rng.At(old(rng.pos) + 1, 0, c.gridSize.height))
    ensures c.Valid() ==> 0 <= p.x <= c.ScreenSize().width && 0 <= p.y <= c.ScreenSize().height
  {
    var i := rng.RandInt(0, c.gridSize.width);
    var j := rng.RandInt(0, c.gridSize.height);
    p := Point(i * c.unitSize.width, j * c.unitSize.height);
    assert p == c.CellCorner(i, j);
  }

  /**
   * Whenever the x draw is the top of its range, the food's corner is the
   * screen width: off the grid the snake moves on.
   */
  lemma InclusiveDrawLeavesGrid(c: CoordinateFactory, rng: Rng, pos: nat)
    requires c.Valid()
    requires rng.stream(pos) % (c.gridSize.width + 1) == c.gridSize.width
    ensures var p := c.CellCorner(rng.At(pos, 0, c.gridSize.width), rng.At(pos + 1, 0, c.gridSize.height));
            p.x == c.ScreenSize().width && !c.OnGrid(p)
  {
  }

  /** On a 5 by 5 grid of 20-pixel cells, an x draw of 5 puts the food at x = 100. */
  lemma InclusiveDrawExample(rng: Rng, pos: nat)
    requires rng.stream(pos) == 5
    ensures var c := CoordinateFactory(Size(20, 20), Size(5, 5));
            c.CellCorner(rng.At(pos, 0, 5), rng.At(pos + 1, 0, 5)).x == 100
            && !c.OnGrid(c.CellCorner(rng.At(pos, 0, 5), rng.At(pos + 1, 0, 5)))
  {
    InclusiveDrawLeavesGrid(CoordinateFactory(Size(20, 20), Size(5, 5)), rng, pos);
  }

  /** A head on a grid cell never finds food that lies at the screen's right or bottom edge. */
  lemma OffScreenFoodIsNeverFound(c: CoordinateFactory, head: Rect, f: Food)
    requires c.Valid() && c.IsCell(head)
    requires f.rect.x == c.ScreenSize().width || f.rect.y == c.ScreenSize().height
    ensures !Finds(head, f)
  {
    FindsSingle(head, f);
    if f.rect.x == c.ScreenSize().width {
      AxisEnd(head.x, c.unitSize.width, c.gridSize.width);
    } else {
      AxisEnd(head.y, c.unitSize.height, c.gridSize.height);
    }
  }

  /**
   * Food at the right or bottom edge stays the only food for good: it is
   * never eaten, and food is only added when there is none.
   */
  lemma OffScreenFoodStays(c: CoordinateFactory, autoGrowUntil: int, rng: Rng, body: seq<Rect>, f: Food,
                           d: Direction, pos: nat)
    requires c.Valid() && |body| >= 1 && AllCells(c, body)
    requires f.rect.x == c.ScreenSize().width || f.rect.y == c.ScreenSize().height
    ensures var t := TickOf(c, autoGrowUntil, rng, body, [f], d, pos);
            t.Ticked? || t.Crashed?
    ensures var t := TickOf(c, autoGrowUntil, rng, body, [f], d, pos);
            t.Ticked? ==> t.food == [f] && |t.body| == |body| + (if |body| < autoGrowUntil then 1 else 0)
  {
    OffScreenFoodIsNeverFound(c, body[0], f);
    assert Stocked(c, rng, body, [f], pos) == [f];
    assert [f][..0] == [];
    assert FoundBy(body[0], [f]) == [];
    assert MissedBy(body[0], [f]) == [f];
  }
}
