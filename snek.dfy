/**
 * The snek copy of the game (src/pyretro/snek/state.py): the same three
 * screens, but each state decides what an event does with an if-chain on
 * the event's type and key instead of a subscriber table, and direction
 * changes are not locked between ticks.
 *
 * The snek factories, structs and events modules are taken to be those of
 * the canonical copy (same grid arithmetic, settings fields and event
 * numbers).
 */
module Snek {
  import opened Wrappers
  import opened Structs
  import opened Sprites
  import opened Random
  import opened Factories
  import opened Events
  import opened EventQueue
  import opened GameRules
  import SnakeGame

  /** What a state's `handle_event` decides to do with an event. */
  datatype Reaction =
    | Ignore
    | StartGame
    | Quit
    | ToMenu
    | Restart
    | Tick
    | Collide
    | Turn(direction: Direction)

  /** The direction an arrow key stands for. */
  function ArrowDirection(key: int): (d: Option<Direction>)
    ensures d.Some? <==> key in {K_UP, K_DOWN, K_RIGHT, K_LEFT}
  {
    if key == K_UP then Some(Up)
    else if key == K_DOWN then Some(Down)
    else if key == K_RIGHT then Some(Right)
    else if key == K_LEFT then Some(Left)
    else None
  }

  /** `MenuState.handle_event`: only the key is looked at, whatever the event's type. */
  function MenuReaction(e: RawEvent): (r: Reaction)
    ensures r == StartGame <==> e.key == Some(K_s)
    ensures r == Quit <==> e.key == Some(K_q)
    ensures r != StartGame && r != Quit ==> r == Ignore
  {
    if e.key.None? then Ignore
    else if e.key.value == K_s then StartGame
    else if e.key.value == K_q then Quit
    else Ignore
  }

  /**
   * `GameState.handle_event`: the tick and the collision signal are
   * recognised by type, before the key is looked at; keys act whatever
   * the event's type.
   */
  function GameReaction(e: RawEvent): (r: Reaction)
    ensures r == Tick <==> e.eventType == CYCLE_EVENT
    ensures r == Collide <==> e.eventType == COLLIDE_EVENT
    ensures e.eventType != CYCLE_EVENT && e.eventType != COLLIDE_EVENT ==>
              (r == Quit <==> e.key == Some(K_q))
              && (r == ToMenu <==> e.key == Some(K_m))
              && (r == Restart <==> e.key == Some(K_r))
              && (r.Turn? <==> e.key.Some? && ArrowDirection(e.key.value).Some?)
              && (r.Turn? ==> r.direction == ArrowDirection(e.key.value).value)
    ensures r != StartGame
  {
    if e.eventType == CYCLE_EVENT then Tick
    else if e.eventType == COLLIDE_EVENT then Collide
    else if e.key.None? then Ignore
    else if e.key.value == K_q then Quit
    else if e.key.value == K_m then ToMenu
    else if e.key.value == K_r then Restart
    else match ArrowDirection(e.key.value)
      case Some(d) => Turn(d)
      case None => Ignore
  }

  /** `GameOverState.handle_event`: `q`, `r` and `m`, whatever the event's type. */
  function OverReaction(e: RawEvent): (r: Reaction)
    ensures r == Quit <==> e.key == Some(K_q)
    ensures r == Restart <==> e.key == Some(K_r)
    ensures r == ToMenu <==> e.key == Some(K_m)
    ensures r != Quit && r != Restart && r != ToMenu ==> r == Ignore
  {
    if e.key.None? then Ignore
    else if e.key.value == K_q then Quit
    else if e.key.value == K_r then Restart
    else if e.key.value == K_m then ToMenu
    else Ignore
  }

  /** The canonical game subscriber list that does what a reaction does. */
  function GameSubscribers(r: Reaction): seq<SnakeGame.GameSubscriber> {
    match r
    case Ignore => []
    case StartGame => [SnakeGame.Common(SnakeGame.GameStateSetter)]
    case Restart => [SnakeGame.Common(SnakeGame.GameStateSetter)]
    case Quit => [SnakeGame.Common(SnakeGame.QuitSetter)]
    case ToMenu => [SnakeGame.Common(SnakeGame.MenuStateSetter)]
    case Tick => [SnakeGame.SpriteUpdater]
    case Collide => [SnakeGame.GameOverStateSetter]
    case Turn(d) => [SnakeGame.DirectionChangeSetter(d)]
  }

  /** The canonical menu or game over subscriber list that does what a reaction does. */
  function StateSubscribers(r: Reaction): seq<SnakeGame.StateSubscriber> {
    match r
    case StartGame => [SnakeGame.GameStateSetter]
    case Restart => [SnakeGame.GameStateSetter]
    case Quit => [SnakeGame.QuitSetter]
    case ToMenu => [SnakeGame.MenuStateSetter]
    case _ => []
  }

  /**
   * For key presses and internal events the snek game reacts as the
   * canonical game's bindings do.
   */
  lemma GameAgreesOnPresses(k: int, t: int)
    requires t != CYCLE_EVENT && t != COLLIDE_EVENT
    ensures GameSubscribers(GameReaction(KeyDown(k)))
            == SnakeGame.Bound(SnakeGame.GameBindings(), LookupKey(KeyDown(k)))
    ensures GameSubscribers(GameReaction(Internal(CYCLE_EVENT)))
            == SnakeGame.Bound(SnakeGame.GameBindings(), LookupKey(Internal(CYCLE_EVENT)))
    ensures GameSubscribers(GameReaction(Internal(COLLIDE_EVENT)))
            == SnakeGame.Bound(SnakeGame.GameBindings(), LookupKey(Internal(COLLIDE_EVENT)))
    ensures GameSubscribers(GameReaction(Internal(t)))
            == SnakeGame.Bound(SnakeGame.GameBindings(), LookupKey(Internal(t)))
  {
    SnakeGame.GameBindingsCover(LookupKey(KeyDown(k)));
    SnakeGame.GameBindingsCover(LookupKey(Internal(t)));
  }

  /**
   * The game over screens of both copies agree on key presses; the menus
   * agree on every key but `m`, which only the canonical menu binds.
   */
  lemma ScreensAgreeOnPresses(k: int)
    ensures StateSubscribers(OverReaction(KeyDown(k)))
            == SnakeGame.Bound(SnakeGame.GameOverBindings(), LookupKey(KeyDown(k)))
    ensures k != K_m ==> StateSubscribers(MenuReaction(KeyDown(k)))
                         == SnakeGame.Bound(SnakeGame.MenuBindings(), LookupKey(KeyDown(k)))
    ensures MenuReaction(KeyDown(K_m)) == Ignore
    ensures SnakeGame.Bound(SnakeGame.MenuBindings(), LookupKey(KeyDown(K_m))) == [SnakeGame.MenuStateSetter]
  {
    SnakeGame.GameOverBindingsCover(LookupKey(KeyDown(k)));
    SnakeGame.MenuBindingsCover(LookupKey(KeyDown(k)));
  }

  /** Releasing `q` quits the snek game, while the canonical game binds presses only. */
  lemma ReleaseQuitsOnlyInSnek()
    ensures GameReaction(RawEvent(KEYUP, Some(K_q), [])) == Quit
    ensures SnakeGame.Bound(SnakeGame.GameBindings(), LookupKey(RawEvent(KEYUP, Some(K_q), []))) == []
  {
    SnakeGame.GameBindingsCover(LookupKey(RawEvent(KEYUP, Some(K_q), [])));
  }

  /** `MenuState(engine, settings)`. */
  class MenuState {
    const settings: GameSettings

    constructor (settings: GameSettings)
      ensures this.settings == settings
    {
      this.settings := settings;
    }
  }

  /** `GameOverState(engine, settings, score)`. */
  class GameOverState {
    const settings: GameSettings
    const score: int

    constructor (settings: GameSettings, score: int)
      ensures this.settings == settings && this.score == score
    {
      this.settings := settings;
      this.score := score;
    }
  }

  /** `GameState`: the snake, the food and the direction, with no lock. */
  class GameState {
    const settings: GameSettings
    const coords: CoordinateFactory
    var snake: Snake
    var food: seq<Food>
    var direction: Direction

    /** Every segment and every food is a cell of the grid. */
    ghost predicate Valid()
      reads this, snake
    {
      && Playable(settings)
      && coords == FactoryOf(settings)
      && snake.Valid()
      && AllCells(coords, snake.rects)
      && FoodOnCells(coords, food)
    }

    /** A one-segment snake in the centre cell, the food drawn at draw `pos`, heading up. */
    ghost predicate Initial(rng: Rng, pos: nat)
      reads this, snake
      requires Playable(settings) && coords == FactoryOf(settings)
    {
      && snake.rects == [CreateSnakeRect(coords, coords.CenterPos())]
      && food == [Candidate(coords, rng, pos, 0)]
      && direction == Up
    }

    /**
     * `GameState(engine, settings)`: the class-level placeholders are
     * replaced by `reset()`.
     */
    constructor (settings: GameSettings, rng: Rng)
      requires Playable(settings)
      modifies rng
      ensures this.settings == settings && Valid() && fresh(snake)
      ensures Initial(rng, old(rng.pos)) && rng.pos == old(rng.pos) + 2
    {
      var c := FactoryOf(settings);
      this.settings := settings;
      coords := c;
      var placeholder := CreateSnake(c);
      snake := placeholder;
      food := [];
      direction := Up;
      new;
      Reset(rng);
    }

    /** `reset()`: a new snake, one food drawn without looking at the snake, heading up. */
    method Reset(rng: Rng)
      requires Playable(settings) && coords == FactoryOf(settings)
      modifies this, rng
      ensures Valid() && fresh(snake)
      ensures Initial(rng, old(rng.pos)) && rng.pos == old(rng.pos) + 2
    {
      var body := CreateSnake(coords);
      snake := body;
      ghost var pos := rng.pos;
      var location := coords.NewFoodLocation(rng);
      food := [CreateSnakeFood(coords, location)];
      direction := Up;
      assert food[0] == Candidate(coords, rng, pos, 0);
      CandidateIsCell(coords, rng, pos, 0);
    }

    /** `pop_found_snake_food()`: the food the head finds is removed and returned. */
    method PopFoundSnakeFood() returns (popped: seq<Food>)
      requires Valid()
      modifies this
      ensures Valid() && snake == old(snake)
      ensures popped == FoundBy(snake.Head(), old(food)) && food == MissedBy(snake.Head(), old(food))
      ensures multiset(popped + food) == multiset(old(food))
      ensures direction == old(direction)
    {
      var remaining;
      popped, remaining := SplitFood(snake, food);
      SplitIsPermutation(snake.Head(), food);
      MissedStaysOnCells(coords, snake.Head(), food);
      food := remaining;
    }

    /** `add_snake_food()`: one food that overlaps no segment is appended. */
    method AddSnakeFood(rng: Rng) returns (placed: bool)
      requires Valid()
      modifies this, rng
      ensures Valid() && snake == old(snake)
      ensures placed <==> Spawned(coords, rng, snake.rects, old(rng.pos)).Some?
      ensures placed ==> food == old(food) + [Spawned(coords, rng, snake.rects, old(rng.pos)).value]
      ensures !placed ==> food == old(food)
      ensures rng.pos == SpawnEnd(coords, rng, snake.rects, old(rng.pos))
      ensures direction == old(direction)
    {
      var f := SpawnFood(coords, rng, snake);
      SpawnedIsFree(coords, rng, snake.rects, old(rng.pos));
      if f.None? {
        return false;
      }
      food := food + [f.value];
      placed := true;
    }

    /** The grow-or-move half of `update_sprites()`, with the collision signal. */
    method AdvanceSnake(queue: Queue, ate: bool) returns (failure: Option<Failure>)
      requires Valid()
      modifies snake, queue
      ensures Valid()
      ensures var a := Advance(coords, settings.autoGrowUntil, old(snake.rects), ate, direction);
              && (a.Some? ==> failure.None? && snake.rects == a.value
                              && queue.pending == old(queue.pending)
                                                  + (if SelfCollides(a.value) then [Internal(COLLIDE_EVENT)] else []))
              && (a.None? ==> failure == Some(IndexError) && snake.rects == old(snake.rects)
                              && queue.pending == old(queue.pending))
    {
      AdvanceStaysOnGrid(coords, settings.autoGrowUntil, snake.rects, ate, direction);
      coords.StepStaysOnGrid(direction, snake.Head());
      var p := coords.Step(direction, snake.Head());
      if ate || snake.Len() < settings.autoGrowUntil {
        snake.Grow(p);
      } else if snake.Len() >= 2 {
        snake.Move(p);
      } else {
        // As in the canonical game, the body is kept as it was before `move` raised.
        return Some(IndexError);
      }
      var collided := snake.CollidesWithSelf();
      if collided {
        queue.Post(Internal(COLLIDE_EVENT));
      }
      failure := None;
    }

    /** The first half of `update_sprites()`: food is added when there is none. */
    method Restock(rng: Rng) returns (stuck: bool)
      requires Valid()
      modifies this, rng
      ensures Valid() && snake == old(snake) && direction == old(direction)
      ensures stuck <==> old(food) == [] && Spawned(coords, rng, snake.rects, old(rng.pos)).None?
      ensures stuck ==> food == old(food)
      ensures !stuck ==> food == Stocked(coords, rng, snake.rects, old(food), old(rng.pos))
      ensures rng.pos == if old(food) == [] then SpawnEnd(coords, rng, snake.rects, old(rng.pos)) else old(rng.pos)
    {
      stuck := false;
      if food == [] {
        var placed := AddSnakeFood(rng);
        stuck := !placed;
      }
    }

    /** The second half: the food found is eaten, then the snake grows or moves. */
    method EatAndAdvance(queue: Queue) returns (failure: Option<Failure>)
      requires Valid()
      modifies this, snake, queue
      ensures Valid() && snake == old(snake) && direction == old(direction)
      ensures food == MissedBy(old(snake.rects)[0], old(food))
      ensures var a := Advance(coords, settings.autoGrowUntil, old(snake.rects),
                               FoundBy(old(snake.rects)[0], old(food)) != [], direction);
              && (a.Some? ==> failure.None? && snake.rects == a.value
                              && queue.pending == old(queue.pending)
                                                  + (if SelfCollides(a.value) then [Internal(COLLIDE_EVENT)] else []))
              && (a.None? ==> failure == Some(IndexError) && snake.rects == old(snake.rects)
                              && queue.pending == old(queue.pending))
    {
      var found := PopFoundSnakeFood();
      failure := AdvanceSnake(queue, found != []);
    }

    /** `update_sprites()`: one tick, as in the canonical game but without unlocking anything. */
    method UpdateSprites(rng: Rng, queue: Queue) returns (failure: Option<Failure>)
      requires Valid()
      modifies this, snake, rng, queue
      ensures Valid() && snake == old(snake)
      ensures var t := TickOf(coords, settings.autoGrowUntil, rng, old(snake.rects), old(food), old(direction),
                              old(rng.pos));
              && rng.pos == t.pos && direction == old(direction)
              && (t.Ticked? ==> failure.None? && snake.rects == t.body && food == t.food
                                && queue.pending == old(queue.pending) + (if t.collided then [Internal(COLLIDE_EVENT)] else []))
              && (t.Stuck? ==> failure == Some(Hung) && snake.rects == old(snake.rects) && food == old(food)
                               && queue.pending == old(queue.pending))
              && (t.Crashed? ==> failure == Some(IndexError) && snake.rects == old(snake.rects) && food == t.food
                                 && queue.pending == old(queue.pending))
    {
      var stuck := Restock(rng);
      if stuck {
        return Some(Hung);
      }
      failure := EatAndAdvance(queue);
    }
  }

  /** The screen a snek engine shows. */
  datatype Screen =
    | Menu(menu: MenuState)
    | Game(game: GameState)
    | Over(over: GameOverState)

  /**
   * The snek `SnakeEngine` (the same loop as the canonical engine): the
   * current state, `active`, and the failure that ended the program.
   */
  class Engine {
    const settings: GameSettings
    const rng: Rng
    const queue: Queue
    var state: Screen
    var active: bool
    var failure: Option<Failure>

    /** The objects of the current state. */
    ghost function Repr(): set<object>
      reads this, if state.Game? then {state.game} else {}
    {
      match state
      case Menu(m) => {m}
      case Game(g) => {g, g.snake}
      case Over(o) => {o}
    }

    ghost predicate Valid()
      reads this, Repr()
    {
      && Playable(settings)
      && match state
         case Menu(m) => m.settings == settings
         case Game(g) => g.settings == settings && g.Valid()
         case Over(o) => o.settings == settings
    }

    constructor (settings: GameSettings, rng: Rng, queue: Queue)
      requires Playable(settings)
      ensures this.settings == settings && this.rng == rng && this.queue == queue
      ensures state.Menu? && !active && failure == None
      ensures Valid() && fresh(Repr())
    {
      this.settings := settings;
      this.rng := rng;
      this.queue := queue;
      var m := new MenuState(settings);
      state := Menu(m);
      active := false;
      failure := None;
    }

    /** The screen is the one before, or one built since: its objects are then all new. */
    twostate predicate Renewed()
      reads this, if state.Game? then {state.game} else {}
    {
      (state == old(state) && Repr() == old(Repr())) || fresh(Repr())
    }

    twostate predicate Quiet()
      reads this, rng, queue
    {
      && state == old(state) && active == old(active) && failure == old(failure)
      && rng.pos == old(rng.pos) && queue.pending == old(queue.pending)
    }

    /**
     * What a reaction that every screen can have did: start or restart
     * a game, quit, go to a new menu, or nothing.
     */
    twostate predicate Switched(r: Reaction)
      reads this, rng, queue, Repr()
    {
      && failure == old(failure) && queue.pending == old(queue.pending)
      && match r
         case StartGame | Restart =>
           && state.Game? && fresh(state.game) && state.game.settings == settings
           && Playable(settings) && state.game.coords == FactoryOf(settings)
           && state.game.Initial(rng, old(rng.pos)) && rng.pos == old(rng.pos) + 2
           && active == old(active)
         case Quit => state == old(state) && !active && rng.pos == old(rng.pos)
         case ToMenu => state.Menu? && fresh(state.menu) && active == old(active) && rng.pos == old(rng.pos)
         case _ => state == old(state) && active == old(active) && rng.pos == old(rng.pos)
    }

    /** Carry out a reaction every screen can have. */
    method Switch(r: Reaction)
      requires Valid()
      requires r.StartGame? || r.Restart? || r.Quit? || r.ToMenu?
      modifies this, rng
      ensures Valid() && Renewed()
      ensures Switched(r)
    {
      match r
      case StartGame =>
        var g := new GameState(settings, rng);
        state := Game(g);
      case Restart =>
        var g := new GameState(settings, rng);
        state := Game(g);
      case Quit =>
        active := false;
      case ToMenu =>
        var m := new MenuState(settings);
        state := Menu(m);
    }

    /** `MenuState.handle_event(e)`. */
    method HandleMenuEvent(e: RawEvent)
      requires Valid() && state.Menu?
      modifies this, rng
      ensures Valid() && Renewed()
      ensures Switched(MenuReaction(e))
    {
      if e.key.None? {
        return;
      }
      if e.key.value == K_s {
        Switch(StartGame);
      } else if e.key.value == K_q {
        Switch(Quit);
      }
    }

    /** `GameOverState.handle_event(e)`. */
    method HandleGameOverEvent(e: RawEvent)
      requires Valid() && state.Over?
      modifies this, rng
      ensures Valid() && Renewed()
      ensures Switched(OverReaction(e))
    {
      if e.key.None? {
        return;
      }
      if e.key.value == K_q {
        Switch(Quit);
      } else if e.key.value == K_r {
        Switch(Restart);
      } else if e.key.value == K_m {
        Switch(ToMenu);
      }
    }

    /** A tick of the game `g`; a failure of the tick is recorded on the engine. */
    method Tick(g: GameState)
      requires Valid() && state == Game(g) && failure.None?
      modifies this, rng, queue, g, g.snake
      ensures Valid() && Renewed()
      ensures && state == old(state) && active == old(active) && g.snake == old(g.snake)
              && var t := TickOf(g.coords, settings.autoGrowUntil, rng, old(g.snake.rects), old(g.food),
                                 old(g.direction), old(rng.pos));
                 && rng.pos == t.pos
                 && (t.Ticked? ==> failure.None? && g.snake.rects == t.body && g.food == t.food
                                   && queue.pending == old(queue.pending)
                                                       + (if t.collided then [Internal(COLLIDE_EVENT)] else []))
                 && (t.Stuck? ==> failure == Some(Hung) && g.snake.rects == old(g.snake.rects)
                                  && g.food == old(g.food) && queue.pending == old(queue.pending))
                 && (t.Crashed? ==> failure == Some(IndexError) && g.snake.rects == old(g.snake.rects)
                                    && g.food == t.food && queue.pending == old(queue.pending))
    {
      var f := g.UpdateSprites(rng, queue);
      if f.Some? {
        failure := f;
      }
    }

    /**
     * What the game `g` did with `e`: a tick, the move to the game over
     * screen with the length of the snake as score, a direction taken at
     * once, or a reaction every screen can have.
     */
    twostate predicate GameReacted(g: GameState, e: RawEvent)
      reads this, rng, queue, g, g.snake, Repr()
      requires old(g.Valid())
    {
      var r := GameReaction(e);
      && (r.Tick? ==>
            && state == old(state) && active == old(active) && g.snake == old(g.snake)
            && var t := TickOf(g.coords, settings.autoGrowUntil, rng, old(g.snake.rects), old(g.food),
                               old(g.direction), old(rng.pos));
               && rng.pos == t.pos
               && (t.Ticked? ==> failure.None? && g.snake.rects == t.body && g.food == t.food
                                 && queue.pending == old(queue.pending)
                                                     + (if t.collided then [Internal(COLLIDE_EVENT)] else []))
               && (t.Stuck? ==> failure == Some(Hung) && g.snake.rects == old(g.snake.rects)
                                && g.food == old(g.food) && queue.pending == old(queue.pending))
               && (t.Crashed? ==> failure == Some(IndexError) && g.snake.rects == old(g.snake.rects)
                                  && g.food == t.food && queue.pending == old(queue.pending)))
      && (r.Collide? ==>
            && state.Over? && fresh(state.over) && state.over.score == old(|g.snake.rects|)
            && active == old(active) && failure == old(failure)
            && rng.pos == old(rng.pos) && queue.pending == old(queue.pending))
      && (r.Turn? ==>
            Quiet() && g.direction == r.direction && g.food == old(g.food)
            && g.snake == old(g.snake) && g.snake.rects == old(g.snake.rects))
      && (!(r.Tick? || r.Collide? || r.Turn?) ==> Switched(r))
    }

    /** `GameState.handle_event(e)`. */
    method HandleGameEvent(g: GameState, e: RawEvent)
      requires Valid() && state == Game(g) && failure.None?
      modifies this, rng, queue, g, g.snake
      ensures Valid() && Renewed()
      ensures GameReacted(g, e)
    {
      if e.eventType == CYCLE_EVENT {
        Tick(g);
        return;
      } else if e.eventType == COLLIDE_EVENT {
        var o := new GameOverState(settings, g.snake.Len());
        state := Over(o);
        return;
      } else if e.key.None? {
        return;
      }
      var key := e.key.value;
      if key == K_q {
        Switch(Quit);
      } else if key == K_m {
        Switch(ToMenu);
      } else if key == K_r {
        Switch(Restart);
      } else if key == K_UP {
        g.direction := Up;
      } else if key == K_DOWN {
        g.direction := Down;
      } else if key == K_RIGHT {
        g.direction := Right;
      } else if key == K_LEFT {
        g.direction := Left;
      }
    }

    /** `self.state.handle_event(e)`, as `process_events` does for each event. */
    method Dispatch(e: RawEvent)
      requires Valid() && failure.None?
      modifies this, rng, queue, Repr()
      ensures Valid() && Renewed()
      ensures old(state).Menu? ==> Switched(MenuReaction(e))
      ensures old(state).Game? ==> GameReacted(old(state).game, e)
      ensures old(state).Over? ==> Switched(OverReaction(e))
      ensures e.key == Some(K_q) && !(old(state).Game? && e.eventType in {CYCLE_EVENT, COLLIDE_EVENT}) ==>
                !active && state == old(state)
      ensures old(state).Menu? && e.key == Some(K_s) ==> state.Game? && fresh(state.game)
      ensures !old(state).Game? ==> failure == old(failure) && queue.pending == old(queue.pending)
    {
      match state
      case Menu(m) =>
        HandleMenuEvent(e);
      case Game(g) =>
        HandleGameEvent(g, e);
      case Over(o) =>
        HandleGameOverEvent(e);
    }
  }
}
