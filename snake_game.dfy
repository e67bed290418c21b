/**
 * The canonical game: its three states, their subscriber bindings and the
 * engine that dispatches pygame events to the current state
 * (src/pyretro/snake/state.py, src/pyretro/snake/pubsub.py and
 * src/pyretro/snake/engine.py).
 *
 * A state's subscribers all act on the state that bound them, so the
 * model leaves that reference implicit; the engine a state belongs to is
 * passed to the methods that need it.
 */
module SnakeGame {
  import opened Wrappers
  import opened Structs
  import opened Sprites
  import opened Random
  import opened Factories
  import opened Events
  import opened EventQueue
  import opened PubSub
  import opened GameRules

  /** The subscribers every state can bind (`StateSubscriber` subclasses). */
  datatype StateSubscriber = GameStateSetter | MenuStateSetter | QuitSetter

  /** The subscribers of the game state: the common ones and `GameStateSubscriber` subclasses. */
  datatype GameSubscriber =
    | Common(setter: StateSubscriber)
    | GameOverStateSetter
    | DirectionChangeSetter(direction: Direction)
    | SpriteUpdater

  /** What a binding table gives for `k`: its list, or `[]` from the default factory. */
  function Bound<S>(m: map<EventKey, seq<S>>, k: EventKey): seq<S> {
    if k in m then m[k] else []
  }

  function MenuBindings(): map<EventKey, seq<StateSubscriber>> {
    map[
      KeyHash(KEYDOWN, K_m) := [MenuStateSetter],
      KeyHash(KEYDOWN, K_s) := [GameStateSetter],
      KeyHash(KEYDOWN, K_q) := [QuitSetter]
    ]
  }

  function GameBindings(): map<EventKey, seq<GameSubscriber>> {
    map[
      KeyHash(KEYDOWN, K_UP) := [DirectionChangeSetter(Up)],
      KeyHash(KEYDOWN, K_DOWN) := [DirectionChangeSetter(Down)],
      KeyHash(KEYDOWN, K_RIGHT) := [DirectionChangeSetter(Right)],
      KeyHash(KEYDOWN, K_LEFT) := [DirectionChangeSetter(Left)],
      KeyHash(KEYDOWN, K_m) := [Common(MenuStateSetter)],
      KeyHash(KEYDOWN, K_r) := [Common(GameStateSetter)],
      KeyHash(KEYDOWN, K_q) := [Common(QuitSetter)],
      InternalHash(CYCLE_EVENT) := [SpriteUpdater],
      InternalHash(COLLIDE_EVENT) := [GameOverStateSetter]
    ]
  }

  function GameOverBindings(): map<EventKey, seq<StateSubscriber>> {
    map[
      KeyHash(KEYDOWN, K_m) := [MenuStateSetter],
      KeyHash(KEYDOWN, K_r) := [GameStateSetter],
      KeyHash(KEYDOWN, K_q) := [QuitSetter]
    ]
  }

  /** The menu reacts to `m`, `s` and `q` key presses only, with one subscriber each. */
  lemma MenuBindingsCover(k: EventKey)
    ensures |Bound(MenuBindings(), k)| <= 1
    ensures Bound(MenuBindings(), k) != [] <==>
              k == KeyHash(KEYDOWN, K_m) || k == KeyHash(KEYDOWN, K_s) || k == KeyHash(KEYDOWN, K_q)
  {
  }

  /** The game over screen reacts to `m`, `r` and `q` key presses only, with one subscriber each. */
  lemma GameOverBindingsCover(k: EventKey)
    ensures |Bound(GameOverBindings(), k)| <= 1
    ensures Bound(GameOverBindings(), k) != [] <==>
              k == KeyHash(KEYDOWN, K_m) || k == KeyHash(KEYDOWN, K_r) || k == KeyHash(KEYDOWN, K_q)
  {
  }

  /**
   * The game binds the four arrows, `m`, `r`, `q`, the tick and the
   * collision signal, one subscriber each; no other event does anything.
   */
  lemma GameBindingsCover(k: EventKey)
    ensures |Bound(GameBindings(), k)| <= 1
    ensures Bound(GameBindings(), k) != [] <==>
              k in {KeyHash(KEYDOWN, K_UP), KeyHash(KEYDOWN, K_DOWN), KeyHash(KEYDOWN, K_RIGHT),
                    KeyHash(KEYDOWN, K_LEFT), KeyHash(KEYDOWN, K_m), KeyHash(KEYDOWN, K_r),
                    KeyHash(KEYDOWN, K_q), InternalHash(CYCLE_EVENT), InternalHash(COLLIDE_EVENT)}
  {
  }

  /** `q` quits and `m` opens the menu in every state; `s` starts a game from the menu; a collision ends a game. */
  lemma SharedKeys()
    ensures Bound(MenuBindings(), KeyHash(KEYDOWN, K_q)) == [QuitSetter]
    ensures Bound(GameBindings(), KeyHash(KEYDOWN, K_q)) == [Common(QuitSetter)]
    ensures Bound(GameOverBindings(), KeyHash(KEYDOWN, K_q)) == [QuitSetter]
    ensures Bound(MenuBindings(), KeyHash(KEYDOWN, K_m)) == [MenuStateSetter]
    ensures Bound(GameBindings(), KeyHash(KEYDOWN, K_m)) == [Common(MenuStateSetter)]
    ensures Bound(GameOverBindings(), KeyHash(KEYDOWN, K_m)) == [MenuStateSetter]
    ensures Bound(MenuBindings(), KeyHash(KEYDOWN, K_s)) == [GameStateSetter]
    ensures Bound(GameBindings(), InternalHash(COLLIDE_EVENT)) == [GameOverStateSetter]
  {
  }

  /** What each event reaches in each state. */
  lemma BindingExamples()
    ensures Bound(MenuBindings(), LookupKey(KeyDown(K_s))) == [GameStateSetter]
    ensures Bound(MenuBindings(), LookupKey(KeyDown(K_r))) == []
    ensures Bound(GameBindings(), LookupKey(Internal(CYCLE_EVENT))) == [SpriteUpdater]
    ensures Bound(GameBindings(), LookupKey(Internal(COLLIDE_EVENT))) == [GameOverStateSetter]
    ensures Bound(GameBindings(), LookupKey(RawEvent(KEYUP, Some(K_UP), []))) == []
    ensures Bound(GameOverBindings(), LookupKey(Internal(CYCLE_EVENT))) == []
  {
  }

  /**
   * The attributes a state object has: those `State.__init__` and the
   * subclasses' constructors assign.
   */
  const StateAttributes: set<string> :=
    {"owner_engine", "game_settings", "_coordinate_factory", "_sprite_factory", "_event_handler"}

  /**
   * `QuitSetter.update` as written: it reads `state._owner_engine`, so it
   * sets `active` to false when the state has that attribute and raises
   * AttributeError (`None`) otherwise.
   */
  function QuitAsWritten(attributes: set<string>, active: bool): (r: Option<bool>)
    ensures r.Some? <==> "_owner_engine" in attributes
    ensures r.Some? ==> r.value == false
  {
    if "_owner_engine" in attributes then Some(false) else None
  }

  /** A state has no `_owner_engine`, so quitting as written always raises. */
  lemma QuitAsWrittenRaises(active: bool)
    ensures QuitAsWritten(StateAttributes, active) == None
    ensures "owner_engine" in StateAttributes
  {
  }

  /** `MenuState`. */
  class MenuState {
    const settings: GameSettings
    const handler: EventHandler<StateSubscriber>

    ghost predicate Valid()
      reads this, handler
    {
      forall k :: handler.Subscribers(k) == Bound(MenuBindings(), k)
    }

    constructor (settings: GameSettings)
      ensures this.settings == settings && Valid() && fresh(handler)
    {
      this.settings := settings;
      handler := new EventHandler(MenuBindings());
    }
  }

  /** `GameOverState(engine, settings, score)`. */
  class GameOverState {
    const settings: GameSettings
    /** The score shown by the title. */
    const score: int
    const handler: EventHandler<StateSubscriber>

    ghost predicate Valid()
      reads this, handler
    {
      forall k :: handler.Subscribers(k) == Bound(GameOverBindings(), k)
    }

    constructor (settings: GameSettings, score: int)
      ensures this.settings == settings && this.score == score && Valid() && fresh(handler)
    {
      this.settings := settings;
      this.score := score;
      handler := new EventHandler(GameOverBindings());
    }
  }

  /** `GameState`. */
  class GameState {
    const settings: GameSettings
    const coords: CoordinateFactory
    const handler: EventHandler<GameSubscriber>
    const snake: Snake
    var food: seq<Food>
    var direction: Direction
    /** `_snake_moved`: a direction change was taken since the last tick. */
    var moved: bool

    /**
     * The game is played on a grid of cells: the snake has a head and
     * every segment and every food is a cell of the grid.
     */
    ghost predicate Valid()
      reads this, snake, handler
    {
      && Playable(settings)
      && coords == FactoryOf(settings)
      && snake.Valid()
      && AllCells(coords, snake.rects)
      && FoodOnCells(coords, food)
      && forall k :: handler.Subscribers(k) == Bound(GameBindings(), k)
    }

    /**
     * The state a new game starts in: a one-segment snake in the centre
     * cell, the food drawn at draw `pos`, heading up, unlocked.
     */
    ghost predicate Initial(rng: Rng, pos: nat)
      reads this, snake
      requires Playable(settings) && coords == FactoryOf(settings)
    {
      && snake.rects == [CreateSnakeRect(coords, coords.CenterPos())]
      && food == [Candidate(coords, rng, pos, 0)]
      && direction == Up
      && !moved
    }

    /**
     * `GameState(engine, settings)`: the first food is drawn without
     * looking at the snake.
     */
    constructor (settings: GameSettings, rng: Rng)
      requires Playable(settings)
      modifies rng
      ensures this.settings == settings && Valid() && fresh(snake) && fresh(handler)
      ensures Initial(rng, old(rng.pos)) && rng.pos == old(rng.pos) + 2
    {
      var c := FactoryOf(settings);
      this.settings := settings;
      coords := c;
      handler := new EventHandler(GameBindings());
      var body := CreateSnake(c);
      snake := body;
      ghost var pos := rng.pos;
      var location := c.NewFoodLocation(rng);
      food := [CreateSnakeFood(c, location)];
      direction := Up;
      moved := false;
      new;
      assert food[0] == Candidate(c, rng, pos, 0);
      CandidateIsCell(c, rng, pos, 0);
    }

    /** `current_score`: the length of the snake. */
    function CurrentScore(): (n: nat)
      reads this, snake
      requires snake.Valid()
      ensures n >= 1
    {
      snake.Len()
    }

    /** `sprites`: the food, then the snake, which is drawn last. */
    function Sprites(): (s: seq<Sprite>)
      reads this, snake
      ensures |s| == |food| + 1
      ensures s[|food|] == Sprite(SnakeKind, snake.rects)
      ensures forall i :: 0 <= i < |food| ==> s[i] == FoodSprite(food[i])
    {
      var fs := food;
      seq(|fs|, i requires 0 <= i < |fs| => FoodSprite(fs[i])) + [Sprite(SnakeKind, snake.rects)]
    }

    /**
     * `change_snake_direction(d)`: taken only when no change was taken
     * since the last tick.
     */
    method ChangeSnakeDirection(d: Direction)
      modifies this
      ensures Heading(direction, moved) == Steer(old(Heading(direction, moved)), d)
      ensures food == old(food)
    {
      if moved {
        return;
      }
      direction := d;
      moved := true;
    }

    /** `pop_found_snake_food()`: the food the head finds is removed and returned. */
    method PopFoundSnakeFood() returns (popped: seq<Food>)
      requires Valid()
      modifies this
      ensures Valid()
      ensures popped == FoundBy(snake.Head(), old(food)) && food == MissedBy(snake.Head(), old(food))
      ensures multiset(popped + food) == multiset(old(food))
      ensures direction == old(direction) && moved == old(moved)
    {
      var remaining;
      popped, remaining := SplitFood(snake, food);
      SplitIsPermutation(snake.Head(), food);
      MissedStaysOnCells(coords, snake.Head(), food);
      food := remaining;
    }

    /**
     * `add_snake_food()`: one food that overlaps no segment is appended;
     * `false` when the search is still redrawing at the generator's limit.
     */
    method AddSnakeFood(rng: Rng) returns (placed: bool)
      requires Valid()
      modifies this, rng
      ensures Valid()
      ensures placed <==> Spawned(coords, rng, snake.rects, old(rng.pos)).Some?
      ensures placed ==> food == old(food) + [Spawned(coords, rng, snake.rects, old(rng.pos)).value]
      ensures !placed ==> food == old(food)
      ensures rng.pos == SpawnEnd(coords, rng, snake.rects, old(rng.pos))
      ensures direction == old(direction) && moved == old(moved)
    {
      var f := SpawnFood(coords, rng, snake);
      SpawnedIsFree(coords, rng, snake.rects, old(rng.pos));
      if f.None? {
        return false;
      }
      food := food + [f.value];
      placed := true;
    }

    /** `get_movement_coordinates()`: the neighbouring cell in the current direction. */
    function GetMovementCoordinates(): (p: Point)
      reads this, snake, handler
      requires Valid()
      ensures p == coords.Step(direction, snake.Head())
      ensures coords.OnGrid(p)
    {
      coords.StepStaysOnGrid(direction, snake.Head());
      coords.Step(direction, snake.Head())
    }

    /**
     * The growing or moving half of `update_sprites()`: grow while the head
     * ate or the snake is shorter than `auto_grow_until`, otherwise move;
     * a one-segment snake cannot move (IndexError). COLLIDE is posted when
     * the new head lies on the body.
     */
    method AdvanceSnake(queue: Queue, ate: bool) returns (failure: Option<Failure>)
      requires Valid()
      modifies this, snake, queue
      ensures Valid()
      ensures food == old(food) && direction == old(direction)
      ensures var a := Advance(coords, settings.autoGrowUntil, old(snake.rects), ate, direction);
              && (a.Some? ==> failure.None? && snake.rects == a.value && !moved
                              && queue.pending == old(queue.pending)
                                                  + (if SelfCollides(a.value) then [Internal(COLLIDE_EVENT)] else []))
              && (a.None? ==> failure == Some(IndexError) && snake.rects == old(snake.rects) && moved == old(moved)
                              && queue.pending == old(queue.pending))
    {
      AdvanceStaysOnGrid(coords, settings.autoGrowUntil, snake.rects, ate, direction);
      var p := GetMovementCoordinates();
      if ate || snake.Len() < settings.autoGrowUntil {
        snake.Grow(p);
      } else if snake.Len() >= 2 {
        snake.Move(p);
      } else {
        // `move` has popped the only segment when `head` raises; the
        // program stops there, so the model keeps the body as it was.
        return Some(IndexError);
      }
      var collided := snake.CollidesWithSelf();
      if collided {
        queue.Post(Internal(COLLIDE_EVENT));
      }
      moved := false;
      failure := None;
    }

    /** The first half of `update_sprites()`: food is added when there is none. */
    method Restock(rng: Rng) returns (stuck: bool)
      requires Valid()
      modifies this, rng
      ensures Valid() && direction == old(direction) && moved == old(moved)
      ensures stuck <==> old(food) == [] && Spawned(coords, rng, snake.rects, old(rng.pos)).None?
      ensures stuck ==> food == old(food)
      ensures !stuck ==> food == Stocked(coords, rng, snake.rects, old(food), old(rng.pos))
      ensures rng.pos == if old(food) == [] then SpawnEnd(coords, rng, snake.rects, old(rng.pos)) else old(rng.pos)
    {
      stuck := false;
      if food == [] {
        var placed := AddSnakeFood(rng);
        stuck := !placed;
      }
    }

    /** The second half: the food found is eaten, then the snake grows or moves. */
    method EatAndAdvance(queue: Queue) returns (failure: Option<Failure>)
      requires Valid()
      modifies this, snake, queue
      ensures Valid() && direction == old(direction)
      ensures food == MissedBy(old(snake.rects)[0], old(food))
      ensures var a := Advance(coords, settings.autoGrowUntil, old(snake.rects),
                               FoundBy(old(snake.rects)[0], old(food)) != [], direction);
              && (a.Some? ==> failure.None? && snake.rects == a.value && !moved
                              && queue.pending == old(queue.pending)
                                                  + (if SelfCollides(a.value) then [Internal(COLLIDE_EVENT)] else []))
              && (a.None? ==> failure == Some(IndexError) && snake.rects == old(snake.rects) && moved == old(moved)
                              && queue.pending == old(queue.pending))
    {
      var found := PopFoundSnakeFood();
      failure := AdvanceSnake(queue, found != []);
    }

    /**
     * `update_sprites()`: one tick. A self-collision posts COLLIDE to the
     * queue; a failure is returned instead of raised.
     */
    method UpdateSprites(rng: Rng, queue: Queue) returns (failure: Option<Failure>)
      requires Valid()
      modifies this, snake, rng, queue
      ensures Valid()
      ensures var t := TickOf(coords, settings.autoGrowUntil, rng, old(snake.rects), old(food), old(direction),
                              old(rng.pos));
              && rng.pos == t.pos && direction == old(direction)
              && (t.Ticked? ==> failure.None? && snake.rects == t.body && food == t.food && !moved
                                && queue.pending == old(queue.pending) + (if t.collided then [Internal(COLLIDE_EVENT)] else []))
              && (t.Stuck? ==> failure == Some(Hung) && snake.rects == old(snake.rects) && food == old(food)
                               && moved == old(moved) && queue.pending == old(queue.pending))
              && (t.Crashed? ==> failure == Some(IndexError) && snake.rects == old(snake.rects) && food == t.food
                                 && moved == old(moved) && queue.pending == old(queue.pending))
    {
      var stuck := Restock(rng);
      if stuck {
        return Some(Hung);
      }
      failure := EatAndAdvance(queue);
    }
  }

  /** `n` collision events, the only events a game posts. */
  function Collisions(n: nat): (s: seq<RawEvent>)
    ensures |s| == n && forall i :: 0 <= i < n ==> s[i] == Internal(COLLIDE_EVENT)
  {
    if n == 0 then [] else Collisions(n - 1) + [Internal(COLLIDE_EVENT)]
  }

  /** What the current state shows: the menu, a game (its sprites and heading) or a final score. */
  datatype Screen =
    | MenuScreen
    | GameScreen(body: seq<Rect>, food: seq<Food>, heading: Heading)
    | OverScreen(score: int)

  /**
   * The engine as a value: the screen, the loop's `active` flag, the
   * failure that ended the program, the draws used so far and the events
   * waiting in the queue.
   */
  datatype EngineView = EngineView(screen: Screen, active: bool, failure: Option<Failure>, pos: nat,
                                   pending: seq<RawEvent>)

  /** The settings are playable and a game's snake has a head. */
  predicate Sound(s: GameSettings, v: EngineView) {
    Playable(s) && (v.screen.GameScreen? ==> |v.screen.body| >= 1)
  }

  /** Sound, and a game's segments and food all lie on cells of the grid. */
  predicate OnGrid(s: GameSettings, v: EngineView) {
    && Sound(s, v)
    && (v.screen.GameScreen? ==>
          AllCells(FactoryOf(s), v.screen.body) && FoodOnCells(FactoryOf(s), v.screen.food))
  }

  /** A new game's screen: one segment in the centre, the food drawn at `pos`, heading up, unlocked. */
  function NewGameScreen(s: GameSettings, rng: Rng, pos: nat): (r: Screen)
    requires Playable(s)
    ensures OnGrid(s, EngineView(r, false, None, pos, []))
  {
    var c := FactoryOf(s);
    CandidateIsCell(c, rng, pos, 0);
    GameScreen([CreateSnakeRect(c, c.CenterPos())], [Candidate(c, rng, pos, 0)], Heading(Up, false))
  }

  /** What a subscriber every state can bind does to the engine. */
  function SetterNext(s: GameSettings, rng: Rng, v: EngineView, sub: StateSubscriber): (r: EngineView)
    requires Sound(s, v)
    ensures Sound(s, r)
  {
    match sub
    case GameStateSetter => v.(screen := NewGameScreen(s, rng, v.pos), pos := v.pos + 2)
    case MenuStateSetter => v.(screen := MenuScreen)
    case QuitSetter => v.(active := false)
  }

  /** What a game subscriber does to the engine while a game is shown. */
  function GameNext(s: GameSettings, rng: Rng, v: EngineView, sub: GameSubscriber): (r: EngineView)
    requires Sound(s, v) && v.screen.GameScreen?
    ensures Sound(s, r)
  {
    var g := v.screen;
    match sub
    case Common(setter) => SetterNext(s, rng, v, setter)
    case GameOverStateSetter => v.(screen := OverScreen(|g.body|))
    case DirectionChangeSetter(d) => v.(screen := g.(heading := Steer(g.heading, d)))
    case SpriteUpdater =>
      var c := FactoryOf(s);
      var t := TickOf(c, s.autoGrowUntil, rng, g.body, g.food, g.heading.direction, v.pos);
      match t
      case Ticked(body, food, collided, pos) =>
        v.(screen := GameScreen(body, food, Heading(g.heading.direction, false)), pos := pos,
           pending := v.pending + if collided then [Internal(COLLIDE_EVENT)] else [])
      case Stuck(pos) => v.(failure := Some(Hung), pos := pos)
      case Crashed(food, pos) => v.(screen := g.(food := food), failure := Some(IndexError), pos := pos)
  }

  /**
   * One event handled by the state current at that moment: the first
   * subscriber its table binds to the event acts, and an unbound event
   * changes nothing.
   */
  function Next(s: GameSettings, rng: Rng, v: EngineView, e: RawEvent): (r: EngineView)
    requires Sound(s, v)
    ensures Sound(s, r)
  {
    match v.screen
    case MenuScreen =>
      var subs := Bound(MenuBindings(), LookupKey(e));
      if subs == [] then v else SetterNext(s, rng, v, subs[0])
    case GameScreen(_, _, _) =>
      var subs := Bound(GameBindings(), LookupKey(e));
      if subs == [] then v else GameNext(s, rng, v, subs[0])
    case OverScreen(_) =>
      var subs := Bound(GameOverBindings(), LookupKey(e));
      if subs == [] then v else SetterNext(s, rng, v, subs[0])
  }

  /** Whatever the event, the engine's game stays on the grid. */
  lemma NextStaysOnGrid(s: GameSettings, rng: Rng, v: EngineView, e: RawEvent)
    requires OnGrid(s, v)
    ensures OnGrid(s, Next(s, rng, v, e))
  {
    match v.screen
    case MenuScreen =>
      var subs := Bound(MenuBindings(), LookupKey(e));
      if subs != [] {
        SetterStaysOnGrid(s, rng, v, subs[0]);
      }
    case OverScreen(_) =>
      var subs := Bound(GameOverBindings(), LookupKey(e));
      if subs != [] {
        SetterStaysOnGrid(s, rng, v, subs[0]);
      }
    case GameScreen(body, food, heading) =>
      var subs := Bound(GameBindings(), LookupKey(e));
      if subs != [] {
        match subs[0]
        case Common(setter) => SetterStaysOnGrid(s, rng, v, setter);
        case SpriteUpdater =>
          TickKeepsGrid(FactoryOf(s), s.autoGrowUntil, rng, body, food, heading.direction, v.pos);
        case _ =>
      }
  }

  /** A subscriber every state can bind leaves the engine on the grid. */
  lemma SetterStaysOnGrid(s: GameSettings, rng: Rng, v: EngineView, sub: StateSubscriber)
    requires OnGrid(s, v)
    ensures OnGrid(s, SetterNext(s, rng, v, sub))
  {
  }

  /**
   * `process_events()` on the events `es` taken from the queue: each goes,
   * in order, to the state current when it is handled, until one fails.
   */
  function Batch(s: GameSettings, rng: Rng, v: EngineView, es: seq<RawEvent>): (r: EngineView)
    requires Sound(s, v)
    ensures Sound(s, r)
    decreases |es|
  {
    if es == [] || v.failure.Some? then v else Batch(s, rng, Next(s, rng, v, es[0]), es[1..])
  }

  /** `run()` on the batches that arrive turn by turn, while the loop is active and nothing failed. */
  function Loop(s: GameSettings, rng: Rng, v: EngineView, batches: seq<seq<RawEvent>>): (r: EngineView)
    requires Sound(s, v)
    ensures Sound(s, r)
    decreases |batches|
  {
    if batches == [] || !v.active || v.failure.Some? then v
    else Loop(s, rng, Batch(s, rng, v.(pending := []), v.pending + batches[0]), batches[1..])
  }

  /** Handling event `i` of `es` when nothing has failed, then the rest. */
  lemma BatchStep(s: GameSettings, rng: Rng, v: EngineView, es: seq<RawEvent>, i: nat)
    requires Sound(s, v) && v.failure.None? && i < |es|
    ensures Batch(s, rng, v, es[i..]) == Batch(s, rng, Next(s, rng, v, es[i]), es[i + 1..])
  {
    assert es[i..][1..] == es[i + 1..];
  }

  /** One turn of an active loop in which nothing failed, then the rest. */
  lemma LoopStep(s: GameSettings, rng: Rng, v: EngineView, bs: seq<seq<RawEvent>>, i: nat)
    requires Sound(s, v) && v.active && v.failure.None? && i < |bs|
    ensures Loop(s, rng, v, bs[i..]) == Loop(s, rng, Batch(s, rng, v.(pending := []), v.pending + bs[i]), bs[i + 1..])
  {
    assert bs[i..][1..] == bs[i + 1..];
  }

  /** A batch only ever posts collision events. */
  lemma {:induction false} BatchPostsCollisions(s: GameSettings, rng: Rng, v: EngineView, es: seq<RawEvent>)
    requires Sound(s, v) && v.pending == Collisions(|v.pending|)
    ensures var r := Batch(s, rng, v, es); r.pending == Collisions(|r.pending|)
    decreases |es|
  {
    if es != [] && v.failure.None? {
      var w := Next(s, rng, v, es[0]);
      assert w.pending == v.pending || w.pending == v.pending + [Internal(COLLIDE_EVENT)];
      BatchPostsCollisions(s, rng, w, es[1..]);
    }
  }

  /** Handling one batch and then another is handling the two as one: events keep their arrival order. */
  lemma {:induction false} BatchSplits(s: GameSettings, rng: Rng, v: EngineView, a: seq<RawEvent>, b: seq<RawEvent>)
    requires Sound(s, v)
    ensures Batch(s, rng, v, a + b) == Batch(s, rng, Batch(s, rng, v, a), b)
    decreases |a|
  {
    if a == [] {
      assert a + b == b;
    } else if v.failure.None? {
      assert (a + b)[1..] == a[1..] + b;
      BatchSplits(s, rng, Next(s, rng, v, a[0]), a[1..], b);
    }
  }

  /**
   * Events reach the state that is current when they are handled: `s`
   * then the left arrow, pressed on the menu, starts a game and turns it
   * left; a further arrow before the next tick is ignored; and `q`
   * followed by `s` still starts the game, because the rest of the batch
   * is handled before the loop checks `active`.
   */
  lemma StartThenSteer(s: GameSettings, rng: Rng, pos: nat)
    requires Playable(s)
    ensures var start := EngineView(MenuScreen, true, None, pos, []);
            var game := NewGameScreen(s, rng, pos);
            && Batch(s, rng, start, [KeyDown(K_s), KeyDown(K_LEFT)])
               == EngineView(game.(heading := Heading(Left, true)), true, None, pos + 2, [])
            && Batch(s, rng, start, [KeyDown(K_s), KeyDown(K_LEFT), KeyDown(K_UP)])
               == EngineView(game.(heading := Heading(Left, true)), true, None, pos + 2, [])
            && Batch(s, rng, start, [KeyDown(K_q), KeyDown(K_s)])
               == EngineView(game, false, None, pos + 2, [])
  {
    var start := EngineView(MenuScreen, true, None, pos, []);
    var game := NewGameScreen(s, rng, pos);
    var started := EngineView(game, true, None, pos + 2, []);
    var left := started.(screen := game.(heading := Heading(Left, true)));
    assert Next(s, rng, start, KeyDown(K_s)) == started;
    assert Next(s, rng, started, KeyDown(K_LEFT)) == left;
    assert Next(s, rng, left, KeyDown(K_UP)) == left;
    assert Batch(s, rng, left, [KeyDown(K_UP)]) == left by {
      assert Batch(s, rng, left, []) == left;
    }
    assert Batch(s, rng, started, [KeyDown(K_LEFT)]) == left by {
      assert Batch(s, rng, left, []) == left;
    }
    assert Batch(s, rng, started, [KeyDown(K_LEFT), KeyDown(K_UP)]) == left by {
      assert [KeyDown(K_LEFT), KeyDown(K_UP)][1..] == [KeyDown(K_UP)];
    }
    assert [KeyDown(K_s), KeyDown(K_LEFT), KeyDown(K_UP)][1..] == [KeyDown(K_LEFT), KeyDown(K_UP)];
    assert [KeyDown(K_s), KeyDown(K_LEFT)][1..] == [KeyDown(K_LEFT)];
    var quit := start.(active := false);
    var quitStarted := EngineView(game, false, None, pos + 2, []);
    assert Next(s, rng, start, KeyDown(K_q)) == quit;
    assert Next(s, rng, quit, KeyDown(K_s)) == quitStarted;
    assert Batch(s, rng, quit, [KeyDown(K_s)]) == quitStarted by {
      assert Batch(s, rng, quitStarted, []) == quitStarted;
    }
    assert [KeyDown(K_q), KeyDown(K_s)][1..] == [KeyDown(K_s)];
  }

  /**
   * With the collision delivered, a collision posted in one turn ends the
   * game first thing in the next: the next batch starts on the game over
   * screen, scored by the length of the snake.
   */
  lemma CollisionEndsGame(s: GameSettings, rng: Rng, v: EngineView, b: seq<RawEvent>)
    requires Sound(s, v) && v.screen.GameScreen? && v.failure.None?
    requires |v.pending| >= 1 && v.pending[0] == Internal(COLLIDE_EVENT)
    ensures Batch(s, rng, v.(pending := []), v.pending + b)
            == Batch(s, rng, v.(screen := OverScreen(|v.screen.body|), pending := []), v.pending[1..] + b)
  {
    var es := v.pending + b;
    assert es[0] == Internal(COLLIDE_EVENT) && es[1..] == v.pending[1..] + b;
    assert Next(s, rng, v.(pending := []), es[0]) == v.(screen := OverScreen(|v.screen.body|), pending := []);
  }

  /**
   * The event types pygame lets onto the queue while each screen is
   * shown. Every state's constructor first blocks all types
   * (`set_blocked(None)`), then allows key presses, and in a game or on
   * the game over screen the tick too.
   */
  function AllowedTypes(sc: Screen): (ts: set<int>)
    ensures KEYDOWN in ts && COLLIDE_EVENT !in ts
  {
    match sc
    case MenuScreen => {KEYDOWN}
    case GameScreen(_, _, _) => {KEYDOWN, CYCLE_EVENT}
    case OverScreen(_) => {KEYDOWN, CYCLE_EVENT}
  }

  /** The events of `es` whose type is allowed, in order: what `event.post` leaves on the queue. */
  function Admitted(allowed: set<int>, es: seq<RawEvent>): (r: seq<RawEvent>)
    ensures |r| <= |es|
    ensures forall i :: 0 <= i < |r| ==> r[i].eventType in allowed
    ensures (forall i :: 0 <= i < |es| ==> es[i].eventType in allowed) ==> r == es
  {
    if es == [] then []
    else (if es[0].eventType in allowed then [es[0]] else []) + Admitted(allowed, es[1..])
  }

  /** No event of `es` has the collision type. */
  predicate NoCollision(es: seq<RawEvent>) {
    forall i :: 0 <= i < |es| ==> es[i].eventType != COLLIDE_EVENT
  }

  /**
   * `run()` as written: what a turn posts passes the event filter of the
   * state then shown before the next turn reads it. Every state's filter
   * leaves out COLLIDE_EVENT, the only type a turn posts, so which state's
   * filter applies does not matter.
   */
  function LoopAsWritten(s: GameSettings, rng: Rng, v: EngineView, batches: seq<seq<RawEvent>>): (r: EngineView)
    requires Sound(s, v)
    ensures Sound(s, r)
    decreases |batches|
  {
    if batches == [] || !v.active || v.failure.Some? then v
    else
      var w := Batch(s, rng, v.(pending := []), v.pending + batches[0]);
      LoopAsWritten(s, rng, w.(pending := Admitted(AllowedTypes(w.screen), w.pending)), batches[1..])
  }

  /** Only a collision event leads to the game over screen. */
  lemma NextKeepsPlaying(s: GameSettings, rng: Rng, v: EngineView, e: RawEvent)
    requires Sound(s, v) && !v.screen.OverScreen? && e.eventType != COLLIDE_EVENT
    ensures !Next(s, rng, v, e).screen.OverScreen?
  {
    assert LookupKey(e) != InternalHash(COLLIDE_EVENT);
  }

  /** A batch without collision events never reaches the game over screen. */
  lemma {:induction false} BatchKeepsPlaying(s: GameSettings, rng: Rng, v: EngineView, es: seq<RawEvent>)
    requires Sound(s, v) && !v.screen.OverScreen? && NoCollision(es)
    ensures !Batch(s, rng, v, es).screen.OverScreen?
    decreases |es|
  {
    if es != [] && v.failure.None? {
      NextKeepsPlaying(s, rng, v, es[0]);
      assert NoCollision(es[1..]) by {
        forall i | 0 <= i < |es[1..]| ensures es[1..][i].eventType != COLLIDE_EVENT {
          assert es[1..][i] == es[i + 1];
        }
      }
      BatchKeepsPlaying(s, rng, Next(s, rng, v, es[0]), es[1..]);
    }
  }

  /**
   * As written, the game never ends: the game over screen is reached only
   * through COLLIDE_EVENT, which no state lets onto the queue, and no
   * arriving event has that type.
   */
  lemma {:induction false} BlockedCollisionNeverEndsGame(s: GameSettings, rng: Rng, v: EngineView,
                                                         batches: seq<seq<RawEvent>>)
    requires Sound(s, v) && !v.screen.OverScreen? && NoCollision(v.pending)
    requires forall b :: b in batches ==> NoCollision(b)
    ensures !LoopAsWritten(s, rng, v, batches).screen.OverScreen?
    decreases |batches|
  {
    if batches != [] && v.active && v.failure.None? {
      var es := v.pending + batches[0];
      assert batches[0] in batches;
      assert NoCollision(es) by {
        forall i | 0 <= i < |es| ensures es[i].eventType != COLLIDE_EVENT {
          if i >= |v.pending| {
            assert es[i] == batches[0][i - |v.pending|];
          }
        }
      }
      var w := Batch(s, rng, v.(pending := []), es);
      BatchKeepsPlaying(s, rng, v.(pending := []), es);
      var u := w.(pending := Admitted(AllowedTypes(w.screen), w.pending));
      assert forall b :: b in batches[1..] ==> b in batches;
      BlockedCollisionNeverEndsGame(s, rng, u, batches[1..]);
    }
  }

  /** The state an engine is in. */
  datatype ActiveState =
    | Menu(menu: MenuState)
    | Game(game: GameState)
    | Over(over: GameOverState)

  /**
   * `SnakeEngine`: the current state and the `active` flag of the game
   * loop. The generator that places food and the event queue are given
   * to it. `failure` records an exception that ended the program (or a
   * food search that did not end); no event is handled after it.
   */
  class Engine {
    const settings: GameSettings
    const rng: Rng
    const queue: Queue
    var state: ActiveState
    var active: bool
    var failure: Option<Failure>

    /** The objects of the current state. */
    ghost function Repr(): set<object>
      reads this
    {
      match state
      case Menu(m) => {m, m.handler}
      case Game(g) => {g, g.handler, g.snake}
      case Over(o) => {o, o.handler}
    }

    /** The current state was built from the engine's settings and keeps its own invariant. */
    ghost predicate Valid()
      reads this, Repr()
    {
      && Playable(settings)
      && match state
         case Menu(m) => m.settings == settings && m.Valid()
         case Game(g) => g.settings == settings && g.Valid()
         case Over(o) => o.settings == settings && o.Valid()
    }

    /** `SnakeEngine(surface, settings)`: the menu is shown and the loop is not running yet. */
    constructor (settings: GameSettings, rng: Rng, queue: Queue)
      requires Playable(settings)
      ensures this.settings == settings && this.rng == rng && this.queue == queue
      ensures state.Menu? && !active && failure == None
      ensures Valid() && fresh(Repr())
    {
      this.settings := settings;
      this.rng := rng;
      this.queue := queue;
      var m := new MenuState(settings);
      state := Menu(m);
      active := false;
      failure := None;
    }

    /** The state is the one before, or one built since: its objects are then all new. */
    twostate predicate Renewed()
      reads this
    {
      state == old(state) || fresh(Repr())
    }

    /** Nothing the engine, the generator or the queue hold has changed. */
    twostate predicate Quiet()
      reads this, rng, queue
    {
      && state == old(state) && active == old(active) && failure == old(failure)
      && rng.pos == old(rng.pos) && queue.pending == old(queue.pending)
    }

    /** The engine as a value; a valid engine is sound. */
    ghost function View(): (v: EngineView)
      reads this, rng, queue, Repr()
      ensures Valid() ==> Sound(settings, v)
    {
      var screen := match state
        case Menu(_) => MenuScreen
        case Game(g) => GameScreen(g.snake.rects, g.food, Heading(g.direction, g.moved))
        case Over(o) => OverScreen(o.score);
      EngineView(screen, active, failure, rng.pos, queue.pending)
    }

    /**
     * A new game has started: a fresh game state built from the engine's
     * settings, in its initial position with its food drawn by the next
     * two draws.
     */
    twostate predicate NewGame()
      reads this, rng, Repr()
    {
      && state.Game? && fresh(state.game) && state.game.settings == settings
      && Playable(settings) && state.game.coords == FactoryOf(settings)
      && state.game.Initial(rng, old(rng.pos)) && rng.pos == old(rng.pos) + 2
      && active == old(active)
    }

    /** What a subscriber every state can bind has done. */
    twostate predicate SetterDone(s: StateSubscriber)
      reads this, rng, queue, Repr()
    {
      && failure == old(failure) && queue.pending == old(queue.pending)
      && match s
         case GameStateSetter => NewGame()
         case MenuStateSetter =>
           state.Menu? && fresh(state.menu) && active == old(active) && rng.pos == old(rng.pos)
         case QuitSetter =>
           state == old(state) && !active && rng.pos == old(rng.pos)
    }

    /** `change_state(new_state)`: the engine's state is replaced. */
    method ChangeState(next: ActiveState)
      modifies this
      ensures state == next
      ensures active == old(active) && failure == old(failure)
    {
      state := next;
    }

    /** `to_game_state()`: a new game replaces the current state. */
    method ToGameState()
      requires Valid()
      modifies this, rng
      ensures Valid() && fresh(Repr())
      ensures NewGame() && failure == old(failure)
    {
      var g := new GameState(settings, rng);
      ChangeState(Game(g));
    }

    /** `to_menu_state()`: a new menu replaces the current state. */
    method ToMenuState()
      requires Valid()
      modifies this
      ensures Valid() && fresh(Repr())
      ensures state.Menu? && active == old(active) && failure == old(failure)
    {
      var m := new MenuState(settings);
      ChangeState(Menu(m));
    }

    /** `to_game_over_state()`: the game over screen shows the length of the snake. */
    method ToGameOverState(g: GameState)
      requires Valid() && state == Game(g)
      modifies this
      ensures Valid() && fresh(Repr())
      ensures state.Over? && state.over.score == |g.snake.rects|
      ensures active == old(active) && failure == old(failure)
    {
      var o := new GameOverState(settings, g.CurrentScore());
      ChangeState(Over(o));
    }

    /**
     * `update()` of a subscriber every state binds. Quitting clears
     * `active`, which is what `QuitSetter` is meant to do (see
     * `QuitAsWritten` for the code as written).
     */
    method ApplySetter(s: StateSubscriber)
      requires Valid()
      modifies this, rng
      ensures Valid() && Renewed()
      ensures SetterDone(s)
      ensures View() == SetterNext(settings, rng, old(View()), s)
    {
      match s
      case GameStateSetter => ToGameState();
      case MenuStateSetter => ToMenuState();
      case QuitSetter => active := false;
    }

    /** What a game-state subscriber has done to the game `g`. */
    twostate predicate GameEffect(g: GameState, s: GameSubscriber)
      reads this, rng, queue, g, g.snake, g.handler, Repr()
    {
      match s
      case Common(setter) => SetterDone(setter)
      case GameOverStateSetter =>
        && state.Over? && fresh(state.over) && state.over.score == old(|g.snake.rects|)
        && active == old(active) && failure == old(failure)
        && rng.pos == old(rng.pos) && queue.pending == old(queue.pending)
      case DirectionChangeSetter(d) =>
        && Quiet()
        && Heading(g.direction, g.moved) == Steer(old(Heading(g.direction, g.moved)), d)
        && g.food == old(g.food) && g.snake.rects == old(g.snake.rects)
      case SpriteUpdater =>
        && state == old(state) && active == old(active)
        && g.Valid() && g.coords.Valid() && old(|g.snake.rects|) >= 1
        && var t := TickOf(g.coords, g.settings.autoGrowUntil, rng, old(g.snake.rects), old(g.food), old(g.direction),
                           old(rng.pos));
           && rng.pos == t.pos && g.direction == old(g.direction)
           && (t.Ticked? ==> failure == old(failure) && g.snake.rects == t.body && g.food == t.food && !g.moved
                             && queue.pending == old(queue.pending)
                                                 + (if t.collided then [Internal(COLLIDE_EVENT)] else []))
           && (t.Stuck? ==> failure == Some(Hung) && queue.pending == old(queue.pending)
                            && g.snake.rects == old(g.snake.rects) && g.food == old(g.food) && g.moved == old(g.moved))
           && (t.Crashed? ==> failure == Some(IndexError) && queue.pending == old(queue.pending)
                              && g.snake.rects == old(g.snake.rects) && g.food == t.food && g.moved == old(g.moved))
    }

    /** `update()` of a game-state subscriber, acting on the current game `g`. */
    method ApplyGame(g: GameState, s: GameSubscriber)
      requires Valid() && state == Game(g)
      modifies this, rng, queue, g, g.snake
      ensures Valid() && Renewed()
      ensures GameEffect(g, s)
      ensures queue.pending == old(queue.pending) || queue.pending == old(queue.pending) + [Internal(COLLIDE_EVENT)]
      ensures View() == GameNext(settings, rng, old(View()), s)
    {
      match s
      case Common(setter) =>
        ApplySetter(setter);
      case GameOverStateSetter =>
        ToGameOverState(g);
      case DirectionChangeSetter(d) =>
        g.ChangeSnakeDirection(d);
      case SpriteUpdater =>
        var f := g.UpdateSprites(rng, queue);
        if f.Some? {
          failure := f;
        }
    }

    /**
     * `MenuState.handle_event(e)`: the subscribers bound to the event run in
     * order; there is at most one (`MenuBindingsCover`).
     */
    method HandleMenuEvent(m: MenuState, e: RawEvent)
      requires Valid() && state == Menu(m)
      modifies this, rng, m.handler
      ensures Valid() && Renewed()
      ensures var subs := Bound(MenuBindings(), LookupKey(e));
              && (subs == [] ==> Quiet())
              && (subs != [] ==> SetterDone(subs[0]))
      ensures View() == Next(settings, rng, old(View()), e)
    {
      var subs := m.handler.Lookup(e);
      assert |subs| <= 1 by { MenuBindingsCover(LookupKey(e)); }
      if subs != [] {
        ApplySetter(subs[0]);
      }
    }

    /** `GameOverState.handle_event(e)`; at most one subscriber is bound (`GameOverBindingsCover`). */
    method HandleGameOverEvent(o: GameOverState, e: RawEvent)
      requires Valid() && state == Over(o)
      modifies this, rng, o.handler
      ensures Valid() && Renewed()
      ensures var subs := Bound(GameOverBindings(), LookupKey(e));
              && (subs == [] ==> Quiet())
              && (subs != [] ==> SetterDone(subs[0]))
      ensures View() == Next(settings, rng, old(View()), e)
    {
      var subs := o.handler.Lookup(e);
      assert |subs| <= 1 by { GameOverBindingsCover(LookupKey(e)); }
      if subs != [] {
        ApplySetter(subs[0]);
      }
    }

    /** The game's subscribers bound to `e`: at most one (`GameBindingsCover`). */
    method LookupGame(g: GameState, e: RawEvent) returns (subs: seq<GameSubscriber>)
      requires Valid() && state == Game(g)
      modifies g.handler
      ensures Valid()
      ensures subs == Bound(GameBindings(), LookupKey(e)) && |subs| <= 1
    {
      subs := g.handler.Lookup(e);
      GameBindingsCover(LookupKey(e));
    }

    /**
     * `GameState.handle_event(e)`. At most one subscriber is bound to any
     * event (`GameBindingsCover`), so the loop over them runs at most once.
     */
    method HandleGameEvent(g: GameState, e: RawEvent)
      requires Valid() && state == Game(g)
      modifies this, rng, queue, g, g.snake, g.handler
      ensures Valid() && Renewed()
      ensures var subs := Bound(GameBindings(), LookupKey(e));
              && (subs == [] ==> Quiet() && unchanged(g, g.snake))
              && (subs != [] ==> GameEffect(g, subs[0]))
      ensures queue.pending == old(queue.pending) || queue.pending == old(queue.pending) + [Internal(COLLIDE_EVENT)]
      ensures View() == Next(settings, rng, old(View()), e)
    {
      var subs := LookupGame(g, e);
      if subs != [] {
        ApplyGame(g, subs[0]);
      }
    }

    /**
     * `self.state.handle_event(e)`. `q` stops the loop in every state, `m`
     * always leads to a new menu, a collision ends a game with the length
     * of the snake as score, and only a game posts events or fails.
     */
    method Dispatch(e: RawEvent)
      requires Valid() && failure.None?
      modifies this, rng, queue, Repr()
      ensures Valid() && Renewed()
      ensures LookupKey(e) == KeyHash(KEYDOWN, K_q) ==> !active && state == old(state)
      ensures LookupKey(e) == KeyHash(KEYDOWN, K_m) ==> state.Menu? && fresh(state.menu)
      ensures old(state).Game? && LookupKey(e) == InternalHash(COLLIDE_EVENT) ==>
                state.Over? && state.over.score == old(|state.game.snake.rects|)
      ensures old(state).Menu? && LookupKey(e) == KeyHash(KEYDOWN, K_s) ==> NewGame()
      ensures !old(state).Game? ==> failure == old(failure) && queue.pending == old(queue.pending)
      ensures queue.pending == old(queue.pending) || queue.pending == old(queue.pending) + [Internal(COLLIDE_EVENT)]
      ensures View() == Next(settings, rng, old(View()), e)
    {
      SharedKeys();
      match state
      case Menu(m) =>
        HandleMenuEvent(m, e);
      case Game(g) =>
        HandleGameEvent(g, e);
      case Over(o) =>
        HandleGameOverEvent(o, e);
    }

    /**
     * `Dispatch` of event `i` of `events`, seen from `process_events()`:
     * what is left of the batch to handle loses its first event.
     */
    method DispatchQueued(ghost start: EngineView, events: seq<RawEvent>, i: nat)
      requires Valid() && failure.None? && i < |events| && Sound(settings, start)
      requires Batch(settings, rng, start, events) == Batch(settings, rng, View(), events[i..])
      modifies this, rng, queue, Repr()
      ensures Valid() && Renewed()
      ensures Batch(settings, rng, start, events) == Batch(settings, rng, View(), events[i + 1..])
    {
      BatchStep(settings, rng, View(), events, i);
      Dispatch(events[i]);
    }

    /**
     * `process_events()`: every event queued so far is handled in order;
     * events posted meanwhile wait for the next call. Handling stops at
     * the event whose handling failed. Returns how many were handled.
     * The engine ends as `Batch` says: each event went, in order, to the
     * state current when it was handled.
     */
    method ProcessEvents() returns (handled: nat)
      requires Valid() && failure.None?
      modifies this, rng, queue, Repr()
      ensures Valid() && Renewed()
      ensures View() == Batch(settings, rng, old(View()).(pending := []), old(queue.pending))
      ensures handled <= |old(queue.pending)|
      ensures failure.None? ==> handled == |old(queue.pending)|
      ensures queue.pending == Collisions(|queue.pending|)
    {
      ghost var start := View().(pending := []);
      var events := queue.Get();
      assert View() == start;
      handled := 0;
      while handled < |events| && failure.None?
        invariant handled <= |events|
        invariant Valid() && Renewed()
        invariant Batch(settings, rng, start, events) == Batch(settings, rng, View(), events[handled..])
      {
        DispatchQueued(start, events, handled);
        handled := handled + 1;
      }
      BatchPostsCollisions(settings, rng, start, events);
    }

    /** One turn of the loop: `batch` arrives and the queue is processed. */
    method Turn(batch: seq<RawEvent>)
      requires Valid() && failure.None?
      modifies this, rng, queue, Repr()
      ensures Valid() && Renewed()
      ensures View() == Batch(settings, rng, old(View()).(pending := []), old(queue.pending) + batch)
    {
      queue.Arrive(batch);
      var _ := ProcessEvents();
    }

    /**
     * `run()`: the loop runs while `active`. Each turn, `batches[n]` is
     * what arrived since the last turn; the model ends when the batches
     * run out, when the game is quit or when handling failed.
     */
    method Run(batches: seq<seq<RawEvent>>) returns (turns: nat)
      requires Valid() && failure.None?
      modifies this, rng, queue, Repr()
      ensures Valid() && Renewed()
      ensures turns <= |batches|
      ensures turns < |batches| ==> !active || failure.Some?
      ensures View() == Loop(settings, rng, old(View()).(active := true), batches)
    {
      active := true;
      ghost var start := View();
      turns := 0;
      while active && failure.None? && turns < |batches|
        invariant turns <= |batches|
        invariant Valid() && Renewed()
        invariant Loop(settings, rng, start, batches) == Loop(settings, rng, View(), batches[turns..])
      {
        LoopStep(settings, rng, View(), batches, turns);
        Turn(batches[turns]);
        turns := turns + 1;
      }
    }
  }
}
