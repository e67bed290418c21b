/**
 * The controller variant: the commands of
 * src/snake/controller/commands/_impl.py and `SnakeGameController`
 * (src/snake/controller/__init__.py), which drives a `SnakeGameModel`.
 * Each event whose wrapper is registered builds one command and executes
 * it; an exception or `sys.exit` ends the program, recorded in `stop`.
 *
 * src/snake/model/__init__.py is not part of this model; the controller
 * drives `GameModel.SnakeGameModel`, which has the fields and methods the
 * controller uses.
 */
module Controller {
  import opened Wrappers
  import opened Structs
  import opened Random
  import opened Sprites
  import opened Factories
  import opened Events
  import CommandEvents
  import opened CommandRegistry
  import opened GameModel
  import opened GameRules

  /** The command classes of `_impl.py`. */
  datatype Command =
    | SetDirection(direction: Direction)
    | QuitCommand
    | PauseCommand
    | RestartCommand
    | MoveSnake

  /** The `register` decorators of `_impl.py`, in the order they run. */
  function Registrations(): seq<(EventKey, Command)> {
    [
      (KeyHash(KEYDOWN, K_UP), SetDirection(Up)),
      (KeyHash(KEYDOWN, K_DOWN), SetDirection(Down)),
      (KeyHash(KEYDOWN, K_RIGHT), SetDirection(Right)),
      (KeyHash(KEYDOWN, K_LEFT), SetDirection(Left)),
      (KeyHash(KEYDOWN, K_q), QuitCommand),
      (KeyHash(KEYDOWN, K_SPACE), PauseCommand),
      (KeyHash(KEYDOWN, K_r), RestartCommand),
      (InternalHash(CommandEvents.INTERNAL_EVENT), MoveSnake)
    ]
  }

  /** The table the decorators leave in a new registry. */
  lemma CommandTable()
    ensures Registered(map[], Registrations()) == map[
              KeyHash(KEYDOWN, K_UP) := SetDirection(Up),
              KeyHash(KEYDOWN, K_DOWN) := SetDirection(Down),
              KeyHash(KEYDOWN, K_RIGHT) := SetDirection(Right),
              KeyHash(KEYDOWN, K_LEFT) := SetDirection(Left),
              KeyHash(KEYDOWN, K_q) := QuitCommand,
              KeyHash(KEYDOWN, K_SPACE) := PauseCommand,
              KeyHash(KEYDOWN, K_r) := RestartCommand,
              InternalHash(CommandEvents.INTERNAL_EVENT) := MoveSnake]
  {
    var regs := Registrations();
    assert regs[..0] == [];
    RegisteredSnoc(map[], regs, 0);
    RegisteredSnoc(map[], regs, 1);
    RegisteredSnoc(map[], regs, 2);
    RegisteredSnoc(map[], regs, 3);
    RegisteredSnoc(map[], regs, 4);
    RegisteredSnoc(map[], regs, 5);
    RegisteredSnoc(map[], regs, 6);
    RegisteredSnoc(map[], regs, 7);
    assert regs[..8] == regs;
  }

  /** An arrow press reaches its direction command and the tick reaches `MoveSnake`. */
  lemma CommandExamples()
    ensures var b := Registered(map[], Registrations());
            && LookupKey(KeyDown(K_LEFT)) in b && b[LookupKey(KeyDown(K_LEFT))] == SetDirection(Left)
            && LookupKey(Internal(CommandEvents.INTERNAL_EVENT)) in b
            && b[LookupKey(Internal(CommandEvents.INTERNAL_EVENT))] == MoveSnake
  {
    CommandTable();
    WrappedEventsAreHashable(KeyDown(K_LEFT));
    WrappedEventsAreHashable(Internal(CommandEvents.INTERNAL_EVENT));
  }

  /** Releasing a key, or an internal event of any other type, has no command. */
  lemma UnboundEvents(k: int, t: int)
    requires t != CommandEvents.INTERNAL_EVENT
    ensures var b := Registered(map[], Registrations());
            LookupKey(RawEvent(KEYUP, Some(k), [])) !in b && LookupKey(Internal(t)) !in b
  {
    var regs := Registrations();
    WrappedEventsAreHashable(RawEvent(KEYUP, Some(k), []));
    WrappedEventsAreHashable(Internal(t));
    assert forall i :: 0 <= i < |regs| ==> regs[i].0 != InternalHash(t) && regs[i].0 != KeyHash(KEYUP, k);
  }

  /** How the program ended. */
  datatype Stop =
    /** `sys.exit(code)`. */
    | Exited(code: int)
    /** A method or attribute the controller does not have was used. */
    | AttributeError
    /** The food search did not end within the generator's redraw limit. */
    | Hung

  /**
   * `PauseCommand.execute` as written: it negates `controller.is_paused`,
   * an attribute the controller never sets (its flag is `_is_paused`), so
   * it raises AttributeError (`None`) unless the attribute exists.
   */
  function PauseAsWritten(isPaused: Option<bool>): (r: Option<bool>)
    ensures r.Some? <==> isPaused.Some?
    ensures r.Some? ==> r.value == !isPaused.value
  {
    match isPaused
    case None => None
    case Some(b) => Some(!b)
  }

  /** A new controller has no `is_paused`, so the first pause raises. */
  lemma PauseAsWrittenRaises()
    ensures PauseAsWritten(None) == None
    ensures forall b :: PauseAsWritten(PauseAsWritten(Some(b))) == Some(b)
  {
  }

  /** The directions the `SetDirection` commands among `events` ask for, in order. */
  function Steering(b: map<EventKey, Command>, events: seq<RawEvent>): (ds: seq<Direction>)
    ensures |ds| <= |events|
    decreases |events|
  {
    if events == [] then []
    else
      var k := LookupKey(events[|events| - 1]);
      Steering(b, events[..|events| - 1]) + (if k in b && b[k].SetDirection? then [b[k].direction] else [])
  }

  /** Every registered event among `events` is bound to a direction command. */
  predicate OnlySteering(b: map<EventKey, Command>, events: seq<RawEvent>) {
    forall i :: 0 <= i < |events| && LookupKey(events[i]) in b ==> b[LookupKey(events[i])].SetDirection?
  }

  /**
   * The controller as a value: the model's direction, body and food, the
   * pause flag, how the program ended, and the draws used so far.
   */
  datatype ControllerView = ControllerView(direction: Direction, body: seq<Rect>, food: seq<Food>, paused: bool,
                                           stop: Option<Stop>, pos: nat)

  /** The model's factory is valid and its snake has a head. */
  predicate Sound(c: CoordinateFactory, v: ControllerView) {
    c.Valid() && |v.body| >= 1
  }

  /**
   * What executing `cmd` does: a direction is taken at once, quitting
   * exits with status 0, pausing toggles the flag, restarting raises
   * AttributeError, and a tick is one `TickOf` step of the model, which
   * stops the program when the food search does not end.
   */
  function Perform(c: CoordinateFactory, rng: Rng, v: ControllerView, cmd: Command): (r: ControllerView)
    requires Sound(c, v)
    ensures Sound(c, r)
  {
    match cmd
    case SetDirection(d) => v.(direction := d)
    case QuitCommand => v.(stop := Some(Exited(0)))
    case PauseCommand => v.(paused := !v.paused)
    case RestartCommand => v.(stop := Some(AttributeError))
    case MoveSnake =>
      var t := TickOf(c, AutoGrowUntil, rng, v.body, v.food, v.direction, v.pos);
      if t.Ticked? then v.(body := t.body, food := t.food, pos := t.pos)
      else v.(stop := Some(Stop.Hung), pos := t.pos)
  }

  /** One event: a registered one executes the command bound to it, any other changes nothing. */
  function Handle(c: CoordinateFactory, rng: Rng, b: map<EventKey, Command>, v: ControllerView, e: RawEvent)
    : (r: ControllerView)
    requires Sound(c, v)
    ensures Sound(c, r)
  {
    var k := LookupKey(e);
    if k in b then Perform(c, rng, v, b[k]) else v
  }

  /** `process_events(events)`: the events in arrival order, until the program ends. */
  function HandleAll(c: CoordinateFactory, rng: Rng, b: map<EventKey, Command>, v: ControllerView,
                     es: seq<RawEvent>): (r: ControllerView)
    requires Sound(c, v)
    ensures Sound(c, r)
    decreases |es|
  {
    if es == [] || v.stop.Some? then v else HandleAll(c, rng, b, Handle(c, rng, b, v, es[0]), es[1..])
  }

  /** `run()` on the batches `pygame.event.get()` returns turn by turn, until the program ends. */
  function RunAll(c: CoordinateFactory, rng: Rng, b: map<EventKey, Command>, v: ControllerView,
                  batches: seq<seq<RawEvent>>): (r: ControllerView)
    requires Sound(c, v)
    ensures Sound(c, r)
    decreases |batches|
  {
    if batches == [] || v.stop.Some? then v else RunAll(c, rng, b, HandleAll(c, rng, b, v, batches[0]), batches[1..])
  }

  /** The events of all batches, in arrival order. */
  function Concat(batches: seq<seq<RawEvent>>): (es: seq<RawEvent>)
    ensures batches != [] ==> es == batches[0] + Concat(batches[1..])
    decreases |batches|
  {
    if batches == [] then [] else batches[0] + Concat(batches[1..])
  }

  /** Handling event `i` of `es` before the program ends, then the rest. */
  lemma HandleStep(c: CoordinateFactory, rng: Rng, b: map<EventKey, Command>, v: ControllerView,
                   es: seq<RawEvent>, i: nat)
    requires Sound(c, v) && v.stop.None? && i < |es|
    ensures HandleAll(c, rng, b, v, es[i..]) == HandleAll(c, rng, b, Handle(c, rng, b, v, es[i]), es[i + 1..])
  {
    assert es[i..][1..] == es[i + 1..];
  }

  /** One turn before the program ends, then the rest. */
  lemma RunStep(c: CoordinateFactory, rng: Rng, b: map<EventKey, Command>, v: ControllerView,
                bs: seq<seq<RawEvent>>, i: nat)
    requires Sound(c, v) && v.stop.None? && i < |bs|
    ensures RunAll(c, rng, b, v, bs[i..]) == RunAll(c, rng, b, HandleAll(c, rng, b, v, bs[i]), bs[i + 1..])
  {
    assert bs[i..][1..] == bs[i + 1..];
  }

  /** Handling one run of events and then another is handling the two as one. */
  lemma {:induction false} HandleAllSplits(c: CoordinateFactory, rng: Rng, b: map<EventKey, Command>,
                                           v: ControllerView, x: seq<RawEvent>, y: seq<RawEvent>)
    requires Sound(c, v)
    ensures HandleAll(c, rng, b, v, x + y) == HandleAll(c, rng, b, HandleAll(c, rng, b, v, x), y)
    decreases |x|
  {
    if x == [] {
      assert x + y == y;
    } else if v.stop.None? {
      assert (x + y)[1..] == x[1..] + y;
      HandleAllSplits(c, rng, b, Handle(c, rng, b, v, x[0]), x[1..], y);
    } else {
      assert HandleAll(c, rng, b, v, y) == v;
    }
  }

  /**
   * The controller keeps no queue of its own, so how the events are cut
   * into turns does not matter: running the batches is handling all
   * their events at once.
   */
  lemma {:induction false} RunAllIsHandleAll(c: CoordinateFactory, rng: Rng, b: map<EventKey, Command>,
                                             v: ControllerView, batches: seq<seq<RawEvent>>)
    requires Sound(c, v)
    ensures RunAll(c, rng, b, v, batches) == HandleAll(c, rng, b, v, Concat(batches))
    decreases |batches|
  {
    if batches == [] {
    } else if v.stop.Some? {
      assert HandleAll(c, rng, b, v, Concat(batches)) == v;
    } else {
      var w := HandleAll(c, rng, b, v, batches[0]);
      RunAllIsHandleAll(c, rng, b, w, batches[1..]);
      HandleAllSplits(c, rng, b, v, batches[0], Concat(batches[1..]));
    }
  }

  /**
   * When the only commands bound to the events are direction changes,
   * handling them changes the direction alone, to the last one asked for.
   */
  lemma {:induction false} HandleAllSteers(c: CoordinateFactory, rng: Rng, b: map<EventKey, Command>,
                                           v: ControllerView, es: seq<RawEvent>)
    requires Sound(c, v) && v.stop.None? && OnlySteering(b, es)
    ensures HandleAll(c, rng, b, v, es) == v.(direction := LastChange(v.direction, Steering(b, es)))
    decreases |es|
  {
    if es == [] {
      assert Steering(b, es) == [];
    } else {
      var n := |es| - 1;
      var front := es[..n];
      assert OnlySteering(b, front) by {
        forall i | 0 <= i < |front| && LookupKey(front[i]) in b
          ensures b[LookupKey(front[i])].SetDirection?
        {
          assert front[i] == es[i];
        }
      }
      HandleAllSteers(c, rng, b, v, front);
      assert front + [es[n]] == es;
      HandleAllSplits(c, rng, b, v, front, [es[n]]);
      var w := HandleAll(c, rng, b, v, front);
      assert HandleAll(c, rng, b, w, [es[n]]) == Handle(c, rng, b, w, es[n]) by {
        assert [es[n]][1..] == [];
      }
      var ds := Steering(b, front);
      var k := LookupKey(es[n]);
      if k in b {
        assert b[k].SetDirection?;
        assert Steering(b, es) == ds + [b[k].direction];
      } else {
        assert Steering(b, es) == ds;
      }
    }
  }

  /** `SnakeGameController(model, view)`. */
  class SnakeGameController {
    const model: SnakeGameModel
    /** The module-level `command_registry`. */
    const registry: ControllerCommandRegistry<Command>
    const rng: Rng
    /** `_is_running`. */
    var isRunning: bool
    /** `_is_paused`. */
    var isPaused: bool
    var stop: Option<Stop>

    ghost predicate Valid()
      reads this, model, model.snake
    {
      model.Valid()
    }

    /** The controller and its model as a value. */
    ghost function View(): (v: ControllerView)
      reads this, model, model.snake, rng
      ensures Valid() ==> Sound(model.coords, v)
    {
      ControllerView(model.direction, model.snake.rects, model.food, isPaused, stop, rng.pos)
    }

    constructor (model: SnakeGameModel, registry: ControllerCommandRegistry<Command>, rng: Rng)
      ensures this.model == model && this.registry == registry && this.rng == rng
      ensures !isRunning && !isPaused && stop == None
    {
      this.model := model;
      this.registry := registry;
      this.rng := rng;
      isRunning := false;
      isPaused := false;
      stop := None;
    }

    /** `alter_direction(d)`: the model's direction is set, with no lock. */
    method AlterDirection(d: Direction)
      modifies model
      ensures model.direction == d && model.food == old(model.food)
    {
      model.direction := d;
    }

    /** `update_coordinates()`: one tick of the model. */
    method UpdateCoordinates()
      requires Valid()
      modifies this, model, model.snake, rng
      ensures Valid()
      ensures var t := TickOf(model.coords, AutoGrowUntil, rng, old(model.snake.rects), old(model.food),
                              old(model.direction), old(rng.pos));
              && rng.pos == t.pos && model.direction == old(model.direction)
              && isPaused == old(isPaused) && isRunning == old(isRunning)
              && (t.Ticked? ==> stop == old(stop) && model.snake.rects == t.body && model.food == t.food)
              && (!t.Ticked? ==> stop == Some(Stop.Hung) && model.snake.rects == old(model.snake.rects)
                                 && model.food == old(model.food))
    {
      var failure := model.UpdateSpriteCoordinates(rng);
      if failure.Some? {
        stop := Some(Stop.Hung);
      }
    }

    /** What executing a command did. */
    twostate predicate Executed(cmd: Command)
      requires old(Valid())
      reads this, model, model.snake, rng
    {
      && isRunning == old(isRunning)
      && match cmd
         case SetDirection(d) =>
           && model.direction == d && model.food == old(model.food) && model.snake.rects == old(model.snake.rects)
           && isPaused == old(isPaused) && stop == old(stop) && rng.pos == old(rng.pos)
         case QuitCommand =>
           && stop == Some(Exited(0)) && isPaused == old(isPaused)
           && unchanged(model) && model.snake.rects == old(model.snake.rects) && rng.pos == old(rng.pos)
         case PauseCommand =>
           && isPaused == !old(isPaused) && stop == old(stop)
           && unchanged(model) && model.snake.rects == old(model.snake.rects) && rng.pos == old(rng.pos)
         case RestartCommand =>
           && stop == Some(AttributeError) && isPaused == old(isPaused)
           && unchanged(model) && model.snake.rects == old(model.snake.rects) && rng.pos == old(rng.pos)
         case MoveSnake =>
           && isPaused == old(isPaused) && model.direction == old(model.direction)
           && var t := TickOf(model.coords, AutoGrowUntil, rng, old(model.snake.rects), old(model.food),
                              old(model.direction), old(rng.pos));
              && rng.pos == t.pos
              && (t.Ticked? ==> stop == old(stop) && model.snake.rects == t.body && model.food == t.food)
              && (!t.Ticked? ==> stop == Some(Stop.Hung) && model.snake.rects == old(model.snake.rects)
                                 && model.food == old(model.food))
    }

    /**
     * `command.execute()`. Quitting exits with status 0; pausing toggles
     * the controller's pause flag, which is what `PauseCommand` is meant to
     * do (see `PauseAsWritten` for the code as written), and nothing reads
     * the flag; restarting calls a method the controller does not have.
     */
    method Execute(cmd: Command)
      requires Valid()
      modifies this, model, model.snake, rng
      ensures Valid()
      ensures Executed(cmd)
      ensures View() == Perform(model.coords, rng, old(View()), cmd)
    {
      match cmd
      case SetDirection(d) =>
        AlterDirection(d);
      case QuitCommand =>
        stop := Some(Exited(0));
      case PauseCommand =>
        isPaused := !isPaused;
      case RestartCommand =>
        stop := Some(AttributeError);
      case MoveSnake =>
        UpdateCoordinates();
    }

    /** One pass of the `process_events` loop. */
    method ProcessEvent(e: RawEvent)
      requires Valid() && stop.None?
      modifies this, model, model.snake, rng
      ensures Valid() && isRunning == old(isRunning)
      ensures !registry.IsRegistered(e) ==>
                unchanged(this) && unchanged(model) && model.snake.rects == old(model.snake.rects)
      ensures registry.IsRegistered(e) ==> Executed(registry.bindings[LookupKey(e)])
      ensures View() == Handle(model.coords, rng, registry.bindings, old(View()), e)
    {
      if registry.IsRegistered(e) {
        var cls := registry.CreateCommand(e);
        Execute(cls.value);
      }
    }

    /** Event `i` of `events` is processed: a direction change when only those are bound. */
    method ProcessNext(ghost start: ControllerView, events: seq<RawEvent>, i: nat)
      requires Valid() && stop.None? && i < |events|
      requires Sound(model.coords, start)
      requires HandleAll(model.coords, rng, registry.bindings, start, events)
               == HandleAll(model.coords, rng, registry.bindings, View(), events[i..])
      modifies this, model, model.snake, rng
      ensures Valid() && isRunning == old(isRunning)
      ensures HandleAll(model.coords, rng, registry.bindings, start, events)
              == HandleAll(model.coords, rng, registry.bindings, View(), events[i + 1..])
      ensures var k := LookupKey(events[i]);
              OnlySteering(registry.bindings, events) ==>
                && stop.None? && model.food == old(model.food) && model.snake.rects == old(model.snake.rects)
                && (k in registry.bindings ==> model.direction == registry.bindings[k].direction)
                && (k !in registry.bindings ==> model.direction == old(model.direction))
      ensures (forall j :: 0 <= j < |events| ==> !registry.IsRegistered(events[j])) ==>
                model.direction == old(model.direction) && isPaused == old(isPaused) && stop.None?
    {
      HandleStep(model.coords, rng, registry.bindings, View(), events, i);
      ProcessEvent(events[i]);
    }

    /**
     * `process_events(events)`: in arrival order, each event with a
     * registered wrapper builds its command and executes it; others are
     * skipped. Processing ends early when the program ends. When the only
     * registered commands are direction changes, the last one wins.
     */
    method ProcessEvents(events: seq<RawEvent>) returns (handled: nat)
      requires Valid() && stop.None?
      modifies this, model, model.snake, rng
      ensures Valid()
      ensures handled <= |events| && isRunning == old(isRunning)
      ensures stop.None? ==> handled == |events|
      ensures View() == HandleAll(model.coords, rng, registry.bindings, old(View()), events)
      ensures OnlySteering(registry.bindings, events) ==>
                && stop.None? && model.food == old(model.food) && model.snake.rects == old(model.snake.rects)
                && model.direction == LastChange(old(model.direction), Steering(registry.bindings, events))
      ensures (forall i :: 0 <= i < |events| ==> !registry.IsRegistered(events[i])) ==>
                model.direction == old(model.direction) && isPaused == old(isPaused)
    {
      ghost var start := View();
      handled := 0;
      while handled < |events| && stop.None?
        invariant handled <= |events| && isRunning == old(isRunning)
        invariant Valid()
        invariant HandleAll(model.coords, rng, registry.bindings, start, events)
                  == HandleAll(model.coords, rng, registry.bindings, View(), events[handled..])
        invariant (forall i :: 0 <= i < |events| ==> !registry.IsRegistered(events[i])) ==>
                    model.direction == old(model.direction) && isPaused == old(isPaused) && stop.None?
      {
        ProcessNext(start, events, handled);
        handled := handled + 1;
      }
      if OnlySteering(registry.bindings, events) {
        HandleAllSteers(model.coords, rng, registry.bindings, start, events);
      }
    }

    /**
     * `run()`: `_is_running` is set and never cleared, so the loop only
     * ends with the program. Each turn handles `batches[n]`, what arrived
     * since the last turn.
     */
    method Run(batches: seq<seq<RawEvent>>) returns (turns: nat)
      requires Valid() && stop.None?
      modifies this, model, model.snake, rng
      ensures Valid() && isRunning
      ensures turns <= |batches|
      ensures turns < |batches| ==> stop.Some?
      ensures View() == RunAll(model.coords, rng, registry.bindings, old(View()), batches)
      ensures View() == HandleAll(model.coords, rng, registry.bindings, old(View()), Concat(batches))
      ensures OnlySteering(registry.bindings, Concat(batches)) ==>
                && stop.None? && turns == |batches|
                && model.food == old(model.food) && model.snake.rects == old(model.snake.rects)
                && isPaused == old(isPaused)
                && model.direction == LastChange(old(model.direction), Steering(registry.bindings, Concat(batches)))
    {
      ghost var start := View();
      RunAllIsHandleAll(model.coords, rng, registry.bindings, start, batches);
      if OnlySteering(registry.bindings, Concat(batches)) {
        HandleAllSteers(model.coords, rng, registry.bindings, start, Concat(batches));
      }
      isRunning := true;
      turns := 0;
      while isRunning && stop.None? && turns < |batches|
        invariant turns <= |batches| && isRunning
        invariant Valid()
        invariant RunAll(model.coords, rng, registry.bindings, start, batches)
                  == RunAll(model.coords, rng, registry.bindings, View(), batches[turns..])
      {
        RunStep(model.coords, rng, registry.bindings, View(), batches, turns);
        var _ := ProcessEvents(batches[turns]);
        turns := turns + 1;
      }
    }
  }

  /** `_impl.py` at import: each decorator registers its class on the registry. */
  method InstallCommands(registry: ControllerCommandRegistry<Command>)
    modifies registry
    ensures registry.bindings == Registered(old(registry.bindings), Registrations())
  {
    ghost var base := registry.bindings;
    var regs := Registrations();
    var i := 0;
    while i < |regs|
      invariant i <= |regs|
      invariant registry.bindings == Registered(base, regs[..i])
    {
      assert regs[..i + 1][..i] == regs[..i];
      registry.Register(regs[i].0, regs[i].1);
      i := i + 1;
    }
    assert regs[..i] == regs;
  }
}
