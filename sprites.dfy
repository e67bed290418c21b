/**
 * Rectangles, food and the snake (src/pyretro/snake/sprites.py). The same
 * `Snake` class appears in src/pyretro/snake/model/sprites/types.py (which
 * adds `contains_top_left`) and src/snake/model/sprites/types.py; the
 * three copies have the same code for every operation modelled here.
 */
module Sprites {
  import opened Wrappers
  import opened Structs

  /** A pygame rectangle (`SnakeRect`): top-left corner and extent. */
  datatype Rect = Rect(x: int, y: int, width: int, height: int) {

    function ToTuple(): (int, int, int, int) {
      (x, y, width, height)
    }

    function TopLeft(): Point {
      Point(x, y)
    }

    function Dimensions(): Size {
      Size(width, height)
    }
  }

  /** `SnakeRect.from_structs(point, size)`. */
  function FromStructs(p: Point, s: Size): (r: Rect)
    ensures r.ToTuple() == (p.x, p.y, s.width, s.height)
    ensures r.TopLeft() == p && r.Dimensions() == s
  {
    Rect(p.x, p.y, s.width, s.height)
  }

  /**
   * `a.colliderect(b)`, taken to hold when the two rectangles share an
   * area: edges that only touch do not collide. pygame is not part of this
   * model; this reading also makes a rectangle whose width or height is
   * not positive collide with nothing, which agrees with pygame for a zero
   * size. The game's rectangles all have the positive cell size.
   */
  predicate Overlaps(a: Rect, b: Rect) {
    && a.width > 0 && a.height > 0 && b.width > 0 && b.height > 0
    && a.x < b.x + b.width && b.x < a.x + a.width
    && a.y < b.y + b.height && b.y < a.y + a.height
  }

  lemma OverlapsSymmetric(a: Rect, b: Rect)
    ensures Overlaps(a, b) == Overlaps(b, a)
  {
  }

  lemma {:induction false} MulCancelLt(u: int, i: int, k: int)
    requires u > 0 && u * i < u * k
    ensures i < k
  {
    assert u * (k - i) == u * k - u * i;
  }

  /**
   * On a grid of cells of size `u`, two cell-sized rectangles whose corners
   * are multiples of the cell size collide exactly when they have the same
   * top-left corner.
   */
  lemma {:induction false} AlignedOverlap(a: Rect, b: Rect, u: Size)
    requires u.width > 0 && u.height > 0
    requires a.Dimensions() == u && b.Dimensions() == u
    requires a.x % u.width == 0 && a.y % u.height == 0
    requires b.x % u.width == 0 && b.y % u.height == 0
    ensures Overlaps(a, b) <==> a.TopLeft() == b.TopLeft()
  {
    if Overlaps(a, b) {
      var w, h := u.width, u.height;
      var ia, ib, ja, jb := a.x / w, b.x / w, a.y / h, b.y / h;
      assert a.x == w * ia && b.x == w * ib;
      assert a.y == h * ja && b.y == h * jb;
      MulCancelLt(w, ia, ib + 1);
      MulCancelLt(w, ib, ia + 1);
      MulCancelLt(h, ja, jb + 1);
      MulCancelLt(h, jb, ja + 1);
    }
  }

  /** `SnakeFood`: one rectangle. */
  datatype Food = Food(rect: Rect) {

    /** `SnakeFood.rects`: the singleton list of its rectangle. */
    function Rects(): (r: seq<Rect>)
      ensures |r| == 1 && r[0] == rect
    {
      [rect]
    }
  }

  /** The concrete sprite classes that `Sprite.__eq__` tells apart. */
  datatype SpriteKind = SnakeKind | FoodKind | TitleKind

  /** What `Sprite.__len__` and `Sprite.__eq__` see of a sprite. */
  datatype Sprite = Sprite(kind: SpriteKind, rects: seq<Rect>)

  function FoodSprite(f: Food): Sprite {
    Sprite(FoodKind, f.Rects())
  }

  /** `len(sprite)` (src/snake/model/sprites/types.py). */
  function SpriteLen(s: Sprite): nat {
    |s.rects|
  }

  lemma FoodHasLengthOne(f: Food)
    ensures SpriteLen(FoodSprite(f)) == 1
    ensures FoodSprite(f).rects == [f.rect]
  {
  }

  /**
   * `a.__eq__(b)`: `None` is Python's NotImplemented, returned when `b` is
   * not of `a`'s class; otherwise the rectangle lists are compared.
   */
  function SpriteEq(a: Sprite, b: Sprite): (r: Option<bool>)
    ensures r == None <==> a.kind != b.kind
    ensures r == Some(true) <==> a.kind == b.kind && a.rects == b.rects
  {
    if a.kind != b.kind then None else Some(a.rects == b.rects)
  }

  /**
   * Python's `a == b` for two distinct sprite objects: when both sides
   * answer NotImplemented, Python falls back to identity.
   */
  function SpriteEquals(a: Sprite, b: Sprite): (r: bool)
    ensures r == (SpriteEq(a, b) == Some(true))
  {
    match SpriteEq(a, b)
    case Some(v) => v
    case None => (match SpriteEq(b, a) case Some(v) => v case None => false)
  }

  lemma SpriteEqualityIsByClassAndRects(a: Sprite, b: Sprite)
    ensures SpriteEquals(a, b) <==> a.kind == b.kind && a.rects == b.rects
    ensures SpriteEquals(a, b) == SpriteEquals(b, a)
  {
  }

  /** The head rectangle after `rect.update(point, head.size)`. */
  function Relocated(head: Rect, p: Point): Rect {
    Rect(p.x, p.y, head.width, head.height)
  }

  /** The body after `move(p)`: the tail is popped and reinserted as the head. */
  function MovedBody(body: seq<Rect>, p: Point): seq<Rect>
    requires |body| >= 2
  {
    [Relocated(body[0], p)] + body[..|body| - 1]
  }

  /** The body after `grow(p)`: a copy of the head is moved to `p` and inserted. */
  function GrownBody(body: seq<Rect>, p: Point): seq<Rect>
    requires |body| >= 1
  {
    [Relocated(body[0], p)] + body
  }

  /** Some tail segment overlaps the head. */
  predicate SelfCollides(body: seq<Rect>)
    requires |body| >= 1
  {
    exists i :: 1 <= i < |body| && Overlaps(body[i], body[0])
  }

  /** The head overlaps the food (`found_food`). */
  predicate Finds(head: Rect, f: Food) {
    exists j :: 0 <= j < |f.Rects()| && Overlaps(head, f.Rects()[j])
  }

  /** Food has one rectangle, so finding it is overlapping that rectangle. */
  lemma FindsSingle(head: Rect, f: Food)
    ensures Finds(head, f) <==> Overlaps(head, f.rect)
  {
    assert f.Rects()[0] == f.rect;
  }

  /** Some rectangle of `xs` overlaps some rectangle of `ys`. */
  predicate AnyOverlap(xs: seq<Rect>, ys: seq<Rect>) {
    exists i, j :: 0 <= i < |xs| && 0 <= j < |ys| && Overlaps(xs[i], ys[j])
  }

  /** Some rectangle of `body` has its top-left corner at `p`. */
  predicate HasTopLeft(body: seq<Rect>, p: Point) {
    exists i :: 0 <= i < |body| && body[i].TopLeft() == p
  }

  lemma {:induction false} MoveKeepsLength(body: seq<Rect>, p: Point)
    requires |body| >= 2
    ensures |MovedBody(body, p)| == |body|
    ensures MovedBody(body, p)[0].TopLeft() == p
    ensures MovedBody(body, p)[0].Dimensions() == body[0].Dimensions()
    ensures forall i :: 1 <= i < |body| ==> MovedBody(body, p)[i] == body[i - 1]
  {
  }

  lemma {:induction false} GrowAddsOne(body: seq<Rect>, p: Point)
    requires |body| >= 1
    ensures |GrownBody(body, p)| == |body| + 1
    ensures GrownBody(body, p)[0].TopLeft() == p
    ensures GrownBody(body, p)[0].Dimensions() == body[0].Dimensions()
    ensures GrownBody(body, p)[1..] == body
  {
  }

  /** The food of `food` that the head finds, in their original order. */
  function FoundBy(head: Rect, food: seq<Food>): (r: seq<Food>)
    ensures |r| <= |food|
    decreases |food|
  {
    if food == [] then []
    else
      var last := food[|food| - 1];
      FoundBy(head, food[..|food| - 1]) + (if Finds(head, last) then [last] else [])
  }

  /** The food of `food` that the head does not find, in their original order. */
  function MissedBy(head: Rect, food: seq<Food>): (r: seq<Food>)
    ensures |r| <= |food|
    decreases |food|
  {
    if food == [] then []
    else
      var last := food[|food| - 1];
      MissedBy(head, food[..|food| - 1]) + (if Finds(head, last) then [] else [last])
  }

  /** The found food is food the head finds, and the missed food is food it does not. */
  lemma {:induction false} SplitMembers(head: Rect, food: seq<Food>)
    ensures forall k :: 0 <= k < |FoundBy(head, food)| ==>
              FoundBy(head, food)[k] in food && Finds(head, FoundBy(head, food)[k])
    ensures forall k :: 0 <= k < |MissedBy(head, food)| ==>
              MissedBy(head, food)[k] in food && !Finds(head, MissedBy(head, food)[k])
    decreases |food|
  {
    if food != [] {
      var init, last := food[..|food| - 1], food[|food| - 1];
      assert food == init + [last];
      SplitMembers(head, init);
      SplitSnoc(head, init, last);
    }
  }

  /** One more food at the end joins the found food or the missed food. */
  lemma SplitSnoc(head: Rect, init: seq<Food>, last: Food)
    ensures FoundBy(head, init + [last]) == FoundBy(head, init) + (if Finds(head, last) then [last] else [])
    ensures MissedBy(head, init + [last]) == MissedBy(head, init) + (if Finds(head, last) then [] else [last])
  {
    assert (init + [last])[..|init|] == init;
  }

  /** Adding one element to either side of a split adds it to the whole. */
  lemma SplitGrows<T>(xs: seq<T>, ys: seq<T>, z: T)
    ensures multiset(xs + [z] + ys) == multiset(xs + ys) + multiset{z}
    ensures multiset(xs + (ys + [z])) == multiset(xs + ys) + multiset{z}
  {
    assert xs + (ys + [z]) == (xs + ys) + [z];
  }

  /** Splitting into found and missed food loses and invents nothing. */
  lemma {:induction false} SplitIsPermutation(head: Rect, food: seq<Food>)
    ensures multiset(FoundBy(head, food) + MissedBy(head, food)) == multiset(food)
    ensures |FoundBy(head, food)| + |MissedBy(head, food)| == |food|
    decreases |food|
  {
    if food != [] {
      var init, last := food[..|food| - 1], food[|food| - 1];
      assert food == init + [last];
      SplitIsPermutation(head, init);
      SplitSnoc(head, init, last);
      SplitGrows(FoundBy(head, init), MissedBy(head, init), last);
    }
  }

  /** Nothing is found exactly when every food is missed. */
  lemma {:induction false} NothingFound(head: Rect, food: seq<Food>)
    ensures FoundBy(head, food) == [] <==> forall k :: 0 <= k < |food| ==> !Finds(head, food[k])
    ensures FoundBy(head, food) == [] ==> MissedBy(head, food) == food
    decreases |food|
  {
    if food != [] {
      var init, last := food[..|food| - 1], food[|food| - 1];
      assert food == init + [last];
      NothingFound(head, init);
      SplitSnoc(head, init, last);
      if FoundBy(head, food) == [] {
        forall k | 0 <= k < |food|
          ensures !Finds(head, food[k])
        {
          if k < |init| {
            assert food[k] == init[k];
          }
        }
      } else if !Finds(head, last) {
        var k :| 0 <= k < |init| && Finds(head, init[k]);
        assert food[k] == init[k];
      }
    }
  }

  /** `Snake`: an ordered list of rectangles, head first. */
  class Snake {
    var rects: seq<Rect>

    ghost predicate Valid()
      reads this
    {
      |rects| >= 1
    }

    /** A new snake has its head as its only segment. */
    constructor (head: Rect)
      ensures Valid() && rects == [head]
      ensures Len() == 1 && Head() == head && Tail() == []
    {
      rects := [head];
    }

    function Len(): nat
      reads this
    {
      |rects|
    }

    function Head(): Rect
      reads this
      requires Valid()
    {
      rects[0]
    }

    function Tail(): seq<Rect>
      reads this
      requires Valid()
    {
      rects[1..]
    }

    /**
     * `move(p)`. The source pops the last segment before reading the head,
     * so a one-segment snake raises IndexError: two segments are required.
     */
    method Move(p: Point)
      requires |rects| >= 2
      modifies this
      ensures Valid() && rects == MovedBody(old(rects), p)
    {
      rects := rects[..|rects| - 1];
      var moved := Rect(p.x, p.y, rects[0].width, rects[0].height);
      rects := [moved] + rects;
    }

    /** `grow(p)`: a copy of the head, moved to `p`, becomes the new head. */
    method Grow(p: Point)
      requires Valid()
      modifies this
      ensures Valid() && rects == GrownBody(old(rects), p)
    {
      var head := rects[0];
      var copy := Rect(p.x, p.y, head.width, head.height);
      rects := [copy] + rects;
    }

    /** `collides_with_self()`: some tail segment overlaps the head. */
    predicate CollidesWithSelf()
      reads this
      requires Valid()
      ensures |rects| == 1 ==> !CollidesWithSelf()
      ensures ((exists i :: 1 <= i < |rects| && rects[i] == rects[0])
               && rects[0].width > 0 && rects[0].height > 0) ==> CollidesWithSelf()
    {
      SelfCollides(rects)
    }

    /** `found_food(f)`: only the head is compared with the food. */
    predicate FoundFood(f: Food)
      reads this
      requires Valid()
      ensures FoundFood(f) <==> Overlaps(rects[0], f.rect)
    {
      FindsSingle(rects[0], f);
      Finds(rects[0], f)
    }

    /** `collides_with_sprite(sprite)`, with the sprite given by its rectangles. */
    method CollidesWithSprite(sprite: seq<Rect>) returns (b: bool)
      ensures b <==> AnyOverlap(rects, sprite)
    {
      var i := 0;
      while i < |rects|
        invariant 0 <= i <= |rects|
        invariant forall i', j :: 0 <= i' < i && 0 <= j < |sprite| ==> !Overlaps(rects[i'], sprite[j])
      {
        var j := 0;
        while j < |sprite|
          invariant 0 <= j <= |sprite|
          invariant forall j' :: 0 <= j' < j ==> !Overlaps(rects[i], sprite[j'])
        {
          if Overlaps(rects[i], sprite[j]) {
            return true;
          }
          j := j + 1;
        }
        i := i + 1;
      }
      return false;
    }

    /** `contains_top_left(p)` (src/pyretro/snake/model/sprites/types.py). */
    method ContainsTopLeft(p: Point) returns (b: bool)
      ensures b <==> HasTopLeft(rects, p)
    {
      var i := 0;
      while i < |rects|
        invariant 0 <= i <= |rects|
        invariant forall i' :: 0 <= i' < i ==> rects[i'].TopLeft() != p
      {
        if Point(rects[i].x, rects[i].y) == p {
          return true;
        }
        i := i + 1;
      }
      return false;
    }
  }

  /**
   * `pop_found_snake_food`'s loop: splits the food list into the food the
   * head finds and the rest, each in the original order.
   */
  method SplitFood(snake: Snake, food: seq<Food>) returns (found: seq<Food>, remaining: seq<Food>)
    requires snake.Valid()
    ensures found == FoundBy(snake.rects[0], food)
    ensures remaining == MissedBy(snake.rects[0], food)
  {
    found, remaining := [], [];
    var i := 0;
    while i < |food|
      invariant 0 <= i <= |food|
      invariant found == FoundBy(snake.rects[0], food[..i])
      invariant remaining == MissedBy(snake.rects[0], food[..i])
    {
      assert food[..i + 1][..i] == food[..i];
      if snake.FoundFood(food[i]) {
        found := found + [food[i]];
      } else {
        remaining := remaining + [food[i]];
      }
      i := i + 1;
    }
    assert food[..|food|] == food;
  }
}
