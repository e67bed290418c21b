# pyretro: snake engines and Langton's ant

A Dafny model of the game logic of pyretro, a collection of small pygame
games. It covers these parts:

- **The canonical snake game** (`src/pyretro/snake`). The engine holds one
  of three states: the menu, the game or the game over screen. It hands
  every pygame event to that state. Each state keeps a table from wrapped
  events to subscribers. A subscriber switches the state, quits, turns the
  snake or advances the game by one tick.
- **One tick of the game.** If there is no food, one food is placed by
  rejection: a new cell is drawn while the food would collide with the
  snake. The food the head finds is then eaten. The snake grows while it
  has eaten or is shorter than `auto_grow_until`; otherwise it moves. It
  wraps around the screen edges. A head that lands on the body posts a
  collision event, meant to end the game. Every canonical state blocks
  that event type, so as written the post is dropped and the game goes
  on (see "## Findings"); the model delivers it.
- **Three other copies.** The snek copy (`src/pyretro/snek/state.py`) uses
  if-chains instead of subscriber tables and has no direction lock. The
  model and controller variant has `SnakeGameModel`
  (`src/pyretro/snake/model/__init__.py`), a command registry and
  `SnakeGameController` (`src/snake/controller`). An older copy of the
  sprites and factories lives under `src/snake/model/sprites`.
- **Langton's ant** (`src/pyretro/langtons_ant`). An ant walks a square
  numpy board of white and black squares.

Modules:

- `PyInt`: Python's `%` and `//`.
- `Random`: `random.randint` as an oracle.
- `Structs`, `Sprites`, `Factories` and `LegacyFactories`: geometry, sprites and factories.
- `Events`, `CommandEvents`, `EventQueue` and `PubSub`: events, their wrappers, the pygame queue and subscriber tables.
- `GameRules`: the rules of one tick, shared by every copy.
- `SnakeGame`, `Snek`, `GameModel`, `CommandRegistry` and `Controller`: the game copies.
- `LangtonsAnt` and `AntGrid`: the ant and its board.

Exceptions and a program that never ends are modelled as values:

- `Failure.IndexError`: moving a one-segment snake.
- `Failure.Hung`: a food search that is still redrawing after the generator's redraw limit.
- `Stop.AttributeError`: a missing attribute in the controller.
- `Stop.Exited`: `sys.exit`.
- `None`: an IndexError on the ant's board.

Once a failure is recorded, no further event is handled.

## Model

| member | source | states |
|---|---|---|
| PyInt.FloorMod | src/pyretro/snake/factories.py:32-34 | Python's `%` takes the divisor's sign; with `//` it rebuilds the dividend |
| PyInt.FloorModPositive | src/pyretro/snake/factories.py:32-46 | with a positive screen size, the wrapping `%` is the Euclidean remainder |
| PyInt.FloorModUnique | src/pyretro/snake/factories.py:32-46 | any remainder in `[0, b)` that differs from the dividend by a multiple of `b` is Python's `%` |
| PyInt.FloorModShift | src/pyretro/snake/factories.py:32-46 | adding whole screen widths does not change a wrapped coordinate |
| Random.Rng.At | src/pyretro/snake/factories.py:23-24 | `randint(a, b)` gives a value in `[a, b]`, bounds included |
| Random.Rng.RandInt | src/pyretro/snake/factories.py:23-24 | a draw returns the generator's next value in range and uses up exactly one draw |
| Structs.DefaultSettings | src/pyretro/snake/structs.py:50-60 | settings built without `auto_grow_until` grow the snake up to length 10 |
| Structs.ShippedSettingsRaise | src/pyretro/snake/const.py:3-12 | as written, `speed` is no field of `GameSettings`, so building `DEFAULT_GAME_SETTINGS` raises TypeError |
| Structs.DefaultGameSettingsPlayable | src/pyretro/snake/const.py:3-12 | the same call without `speed` builds 20-pixel cells on a 20 by 20 grid, which are playable, with growth up to length 10 |
| Structs.AddThenSub | src/pyretro/snake/structs.py:9-19 | adding then subtracting a point, or the reverse, gives the point back |
| Structs.ReflectedOperators | src/pyretro/snake/structs.py:9-19 | `__radd__` agrees with `+` in either order; `__rsub__` is subtraction reversed |
| Structs.ToTupleRoundTrip | src/pyretro/snake/structs.py:21-41 | `to_tuple` of a point or a size loses nothing |
| Structs.MulComponentwise | src/pyretro/snake/structs.py:34-35 | size product is width times width and height times height, and is commutative |
| Sprites.FromStructs | src/pyretro/snake/sprites.py:22-24 | the rect's corner is the point, its extent is the size, and `to_tuple` gives the four values back |
| Sprites.OverlapsSymmetric | src/pyretro/snake/sprites.py:107-122 | `colliderect` does not depend on which rect asks |
| Sprites.AlignedOverlap | src/pyretro/snake/sprites.py:116-122 | two cell-sized rects whose corners lie on the cell grid collide exactly when their corners coincide |
| Sprites.Food.Rects | src/pyretro/snake/sprites.py:62-64 | food has exactly one rect, its own |
| Sprites.FoodHasLengthOne | src/snake/model/sprites/types.py:17-32 | `len(food)` is 1 |
| Sprites.SpriteEq | src/pyretro/snake/sprites.py:28-31 | `__eq__` is NotImplemented exactly when the classes differ; otherwise it is true exactly when the rect lists are equal |
| Sprites.SpriteEquals | src/pyretro/snake/sprites.py:28-31 | `==` between two sprites is true exactly when `__eq__` answers true |
| Sprites.SpriteEqualityIsByClassAndRects | src/pyretro/snake/sprites.py:28-31 | sprites are equal exactly when they have the same class and rect list; equality is symmetric |
| Sprites.FindsSingle | src/pyretro/snake/sprites.py:111-114 | finding food means the head overlaps the food's rect |
| Sprites.MoveKeepsLength | src/pyretro/snake/sprites.py:95-99 | a move keeps the length, puts a head-sized segment at the point and shifts every other segment back by one, dropping the last |
| Sprites.GrowAddsOne | src/pyretro/snake/sprites.py:101-105 | a grow adds one head-sized segment at the point in front of the whole old body |
| Sprites.FoundBy | src/pyretro/snake/state.py:142-151 | the popped food is never more than the food there was |
| Sprites.MissedBy | src/pyretro/snake/state.py:142-151 | the remaining food is never more than the food there was |
| Sprites.SplitMembers | src/pyretro/snake/state.py:142-151 | every popped food comes from the list and is found by the head; every remaining food comes from the list and is not |
| Sprites.SplitIsPermutation | src/pyretro/snake/state.py:142-151 | popped plus remaining food is a permutation of the food before |
| Sprites.NothingFound | src/pyretro/snake/state.py:142-151 | nothing is popped exactly when the head finds no food, and then the list is unchanged |
| Sprites.Snake.constructor | src/pyretro/snake/sprites.py:75-78 | a new snake is its head alone: length 1, empty tail |
| Sprites.Snake.Move | src/pyretro/snake/sprites.py:95-99 | the body becomes the moved body of `MoveKeepsLength` |
| Sprites.Snake.Grow | src/pyretro/snake/sprites.py:101-105 | the body becomes the grown body of `GrowAddsOne` |
| Sprites.Snake.CollidesWithSelf | src/pyretro/snake/sprites.py:107-109 | a one-segment snake never collides with itself; a tail segment equal to a non-empty head always does |
| Sprites.Snake.FoundFood | src/pyretro/snake/sprites.py:111-114 | only the head is compared: true exactly when the head overlaps the food |
| Sprites.Snake.CollidesWithSprite | src/pyretro/snake/sprites.py:116-122 | true exactly when some segment overlaps some rect of the sprite |
| Sprites.Snake.ContainsTopLeft | src/pyretro/snake/model/sprites/types.py:110-116 | true exactly when some segment has its corner at the point |
| Sprites.SplitFood | src/pyretro/snake/state.py:143-149 | the loop yields the found and the missed food, each in the original order |
| Factories.CoordinateFactory.ScreenSize | src/pyretro/snake/factories.py:12-14 | on a real grid the screen is positive and at least one cell large |
| Factories.CoordinateFactory.CellCorner | src/pyretro/snake/factories.py:22-27 | a cell's corner lies on the grid exactly when the cell's indices are in range |
| Factories.CoordinateFactory.OnGridIsCellCorner | src/pyretro/snake/factories.py:22-27 | every corner on the grid is the corner of the in-range cell it names |
| Factories.CoordinateFactory.CenterPos | src/pyretro/snake/factories.py:16-20 | the corner of cell `(w // 2, h // 2)`, on the grid |
| Factories.CoordinateFactory.NewFoodLocation | src/pyretro/snake/factories.py:22-27 | two draws, x first, give the corner of a cell of the grid |
| Factories.CoordinateFactory.MoveLeft | src/pyretro/snake/factories.py:32-34 | same row; the column wraps into the screen |
| Factories.CoordinateFactory.MoveRight | src/pyretro/snake/factories.py:36-38 | same row; the column wraps into the screen |
| Factories.CoordinateFactory.MoveUp | src/pyretro/snake/factories.py:40-42 | same column; the row wraps into the screen |
| Factories.CoordinateFactory.MoveDown | src/pyretro/snake/factories.py:44-46 | same column; the row wraps into the screen |
| Factories.CoordinateFactory.Step | src/pyretro/snake/state.py:164-174 | a vertical move keeps x and a horizontal move keeps y |
| Factories.CoordinateFactory.StepStaysOnGrid | src/pyretro/snake/factories.py:32-46 | from a cell of the grid, every move lands on a cell of the grid, edges included |
| Factories.CoordinateFactory.OppositeStepsCancel | src/pyretro/snake/factories.py:32-46 | right then left, left then right, down then up and up then down each return to the start |
| Factories.WrapExamples | src/pyretro/snake/factories.py:32-46 | on a 100-pixel screen, leaving at one edge re-enters at the other |
| Factories.CreateSnakeRect | src/pyretro/snake/factories.py:53-55 | a rect of the cell size at the point |
| Factories.CreateSnakeFood | src/pyretro/snake/factories.py:63-66 | food of the cell size at the point, which is a grid cell when the point is on the grid |
| Factories.CreateSnake | src/pyretro/snake/factories.py:57-61 | a new one-segment snake in the centre cell |
| LegacyFactories.PlayerInitPos | src/snake/model/sprites/factories.py:22-27 | the older `player_init_pos` is the canonical `center_pos` |
| LegacyFactories.NewFoodLocationAsWritten | src/snake/model/sprites/factories.py:29-35 | indices are drawn from `[0, grid]`, so the corner can lie on the screen's right or bottom edge |
| LegacyFactories.InclusiveDrawLeavesGrid | src/snake/model/sprites/factories.py:29-35 | whenever the x draw is the top of its range, the food lies off the grid |
| LegacyFactories.InclusiveDrawExample | src/snake/model/sprites/factories.py:29-35 | on a 5 by 5 grid of 20-pixel cells, the draw 5 puts food at x = 100, off the grid |
| LegacyFactories.OffScreenFoodIsNeverFound | src/snake/model/sprites/factories.py:29-35 | a head on the grid never finds food at the right or bottom edge |
| LegacyFactories.OffScreenFoodStays | src/snake/model/sprites/factories.py:29-35 | food at the right or bottom edge is never eaten and no other food is added: the snake only grows while short |
| Events.WrapEvent | src/pyretro/snake/events.py:73-77 | an event with a key becomes a key event, any other an internal event, wrapping the event itself |
| Events.Type | src/pyretro/snake/events.py:42-44 | a wrapper's type is the wrapped event's type |
| Events.Hash | src/pyretro/snake/events.py:63-70 | a key event hashes `(type, key)`, an internal event its type; a keyless key event raises |
| Events.WrappedEventsAreHashable | src/pyretro/snake/events.py:63-77 | `wrap_event` never builds an unhashable wrapper |
| Events.LookupKey | src/pyretro/snake/pubsub.py:69-70 | the table key of an event is the hash of its wrapper |
| Events.LookupIgnoresExtras | src/pyretro/snake/events.py:63-70 | attributes other than type and key do not change where an event is filed |
| Events.LookupSeparatesKeys | src/pyretro/snake/events.py:63-70 | two events share a table key exactly when they have the same type and the same key |
| Events.Eq | src/pyretro/snake/events.py:46-49 | NotImplemented exactly when the classes differ; otherwise always true, since the slot leaves `__dict__` empty |
| Events.Equals | src/pyretro/snake/events.py:46-49 | two wrappers are `==` exactly when they are of the same class |
| Events.KeyNeverEqualsInternal | src/pyretro/snake/events.py:46-49 | a key event never equals an internal event, either way round |
| Events.SameClassAlwaysEqual | src/pyretro/snake/events.py:46-49 | key events for different keys still compare equal |
| Events.DictMatchIsSameKey | src/pyretro/snake/events.py:46-70 | a dictionary matches two wrapped events exactly when their table keys agree |
| CommandEvents.WrapEvent | src/snake/controller/commands/events.py:58-63 | a key event exactly when the event has a key, wrapping the event itself |
| CommandEvents.Type | src/snake/controller/commands/events.py:40-52 | key events report their own type; internal events always report `INTERNAL_EVENT` |
| CommandEvents.Key | src/snake/controller/commands/events.py:36-38 | a key event reports the wrapped event's key |
| CommandEvents.InternalTypeIsConstant | src/snake/controller/commands/events.py:48-55 | every keyless event reports the tick type, yet is hashed under its own type |
| CommandEvents.SameFilingAsGameWrappers | src/snake/controller/commands/events.py:19-63 | these wrappers are filed exactly as the game's own wrappers |
| EventQueue.Queue.Post | src/pyretro/snake/state.py:190 | a posted event goes behind everything queued |
| EventQueue.Queue.Get | src/pyretro/snake/engine.py:20 | every queued event is returned oldest first, and the queue is emptied |
| EventQueue.Queue.Arrive | src/pyretro/snake/engine.py:24-30 | events from outside join the back of the queue |
| PubSub.EventHandler.constructor | src/pyretro/snake/pubsub.py:61-62 | each key has its bound subscribers; every other key has none |
| PubSub.EventHandler.Empty | src/pyretro/snake/pubsub.py:61-62 | with no bindings, every key has no subscribers |
| PubSub.EventHandler.AddSubscriber | src/pyretro/snake/pubsub.py:64-66 | the subscriber is appended to its key's list, other keys keep theirs, and the handler itself is returned |
| PubSub.EventHandler.Lookup | src/pyretro/snake/pubsub.py:68-70 | gives the event's subscribers; the default dictionary files the key, yet no key's subscribers change |
| GameRules.PlayableFactory | src/pyretro/snake/state.py:34-35 | playable settings make a factory with positive cells and grid, and nothing else does |
| GameRules.MissedStaysOnCells | src/pyretro/snake/state.py:142-151 | food left after eating still lies on grid cells |
| GameRules.CandidateIsDrawn | src/pyretro/snake/state.py:154-159 | each candidate of the search is the food made at the cell drawn for it |
| GameRules.CandidateIsCell | src/pyretro/snake/state.py:154-159 | every candidate lies on a grid cell |
| GameRules.FirstFreeIsFirst | src/pyretro/snake/state.py:153-162 | the search accepts the first candidate that overlaps no segment; when it finds none, every candidate was blocked |
| GameRules.SpawnedIsFree | src/pyretro/snake/state.py:153-162 | placed food lies on a grid cell and overlaps no segment |
| GameRules.DrawCandidate | src/pyretro/snake/state.py:154-156 | a location and its food are the next candidate, using two draws |
| GameRules.Probe | src/pyretro/snake/state.py:157 | the collision test is true exactly when the candidate is blocked |
| GameRules.SpawnFood | src/pyretro/snake/state.py:153-162 | the rejection loop gives the first free candidate and stops after its draws |
| GameRules.Advance | src/pyretro/snake/state.py:180-186 | grows by one keeping the body, or moves keeping the length; the head steps in the direction; a one-segment move fails |
| GameRules.AdvanceStaysOnGrid | src/pyretro/snake/state.py:180-186 | a snake made of grid cells stays made of grid cells |
| GameRules.AdvanceScore | src/pyretro/snake/state.py:180-186 | the length never drops, and eating adds exactly one |
| GameRules.MoveOnlyAtThreshold | src/pyretro/snake/state.py:183-186 | with a threshold of at least 2 the snake never crashes, and only moves once it reaches the threshold |
| GameRules.TickOf | src/pyretro/snake/state.py:176-191 | a tick is stuck only when food is due and none can be placed; it eats what the head finds, moves the head one step and signals exactly a self-collision |
| GameRules.TickKeepsGrid | src/pyretro/snake/state.py:176-191 | a tick keeps the snake and the food on grid cells |
| GameRules.TickRemovesFound | src/pyretro/snake/state.py:177-180 | a tick removes exactly the food the head finds, as a permutation |
| GameRules.TickGrowsOnFood | src/pyretro/snake/state.py:180-184 | after finding food the snake grows by one and keeps its old body |
| GameRules.TickStocksFreeFood | src/pyretro/snake/state.py:177-178 | food added to an empty list is the only food and overlaps no segment |
| GameRules.Steer | src/pyretro/snake/state.py:116-121 | a change locks the direction; while locked the direction stays |
| GameRules.FirstChangeWins | src/pyretro/snake/state.py:116-121 | between two ticks the first requested direction wins |
| GameRules.LockedStays | src/pyretro/snake/state.py:116-121 | once locked, further changes are ignored |
| GameRules.LastChange | src/pyretro/snek/state.py:99-106 | without a lock the last requested direction wins |
| GameModel.TopLeftTestIsOverlapTest | src/pyretro/snake/model/__init__.py:52-53 | on the grid, the corner test rejects the same food as the collision test |
| GameModel.DrawLocation | src/pyretro/snake/model/__init__.py:51-53 | each drawn location makes the next candidate, using two draws |
| GameModel.ProbeCorner | src/pyretro/snake/model/__init__.py:52 | the corner test is true exactly when the candidate is blocked |
| GameModel.SpawnFoodByCorner | src/pyretro/snake/model/__init__.py:50-54 | the corner-rejection loop finds the same food after the same draws as the canonical search |
| GameModel.ModelNeverCrashes | src/pyretro/snake/model/__init__.py:77-80 | with the fixed length 10 a tick never moves a one-segment snake |
| GameModel.SnakeGameModel.constructor | src/pyretro/snake/model/__init__.py:14-21 | one segment at the initial position, no food, heading up |
| GameModel.SnakeGameModel.Sprites | src/pyretro/snake/model/__init__.py:35-37 | every food in order, then the snake last |
| GameModel.SnakeGameModel.PopFoundSnakeFood | src/pyretro/snake/model/__init__.py:39-48 | pops exactly the found food; the rest keeps its order; together they are a permutation of the food before |
| GameModel.SnakeGameModel.AddSnakeFood | src/pyretro/snake/model/__init__.py:50-57 | appends the food found by the search, if the search ends |
| GameModel.SnakeGameModel.GetMovementCoordinates | src/pyretro/snake/model/__init__.py:59-69 | the neighbouring grid cell in the current direction |
| GameModel.SnakeGameModel.AdvanceSnake | src/pyretro/snake/model/__init__.py:76-80 | grows or moves by `Advance` with length 10, which never fails here |
| GameModel.SnakeGameModel.Restock | src/pyretro/snake/model/__init__.py:72-73 | food is added only to an empty list |
| GameModel.SnakeGameModel.EatAndAdvance | src/pyretro/snake/model/__init__.py:75-80 | the found food is removed, then the snake grows if it ate |
| GameModel.SnakeGameModel.UpdateSpriteCoordinates | src/pyretro/snake/model/__init__.py:71-80 | one tick of `TickOf` with length 10; it never crashes and keeps everything on the grid |
| SnakeGame.MenuBindingsCover | src/pyretro/snake/state.py:67-72 | the menu reacts to exactly the `m`, `s` and `q` presses, with one subscriber each |
| SnakeGame.GameOverBindingsCover | src/pyretro/snake/state.py:218-223 | the game over screen reacts to exactly the `m`, `r` and `q` presses |
| SnakeGame.GameBindingsCover | src/pyretro/snake/state.py:91-103 | the game reacts to exactly the four arrows, `m`, `r`, `q`, the tick and the collision signal |
| SnakeGame.SharedKeys | src/pyretro/snake/state.py:64-223 | `q` quits and `m` opens the menu in every state, `s` starts a game, a collision ends it |
| SnakeGame.BindingExamples | src/pyretro/snake/pubsub.py:68-72 | which subscriber a given event reaches in each state; key releases reach none |
| SnakeGame.QuitAsWritten | src/pyretro/snake/pubsub.py:36-38 | as written, quitting works only if the state has `_owner_engine` |
| SnakeGame.QuitAsWrittenRaises | src/pyretro/snake/pubsub.py:36-38 | states have `owner_engine` but no `_owner_engine`, so quitting as written raises |
| SnakeGame.MenuState.constructor | src/pyretro/snake/state.py:64-73 | the menu's table is exactly its three bindings |
| SnakeGame.GameOverState.constructor | src/pyretro/snake/state.py:207-223 | keeps the score; the table is exactly its three bindings |
| SnakeGame.GameState.constructor | src/pyretro/snake/state.py:89-110 | one segment in the centre, one food from the next two draws, heading up, unlocked |
| SnakeGame.GameState.CurrentScore | src/pyretro/snake/state.py:112-114 | the score is at least 1 |
| SnakeGame.GameState.Sprites | src/pyretro/snake/state.py:138-140 | every food in order, then the snake last |
| SnakeGame.GameState.ChangeSnakeDirection | src/pyretro/snake/state.py:116-121 | the heading follows `Steer`: taken and locked unless already locked |
| SnakeGame.GameState.PopFoundSnakeFood | src/pyretro/snake/state.py:142-151 | pops exactly the found food; the rest keeps its order; together they are a permutation of the food before |
| SnakeGame.GameState.AddSnakeFood | src/pyretro/snake/state.py:153-162 | appends food that overlaps no segment, or reports a search still running |
| SnakeGame.GameState.GetMovementCoordinates | src/pyretro/snake/state.py:164-174 | the neighbouring grid cell in the current direction |
| SnakeGame.GameState.AdvanceSnake | src/pyretro/snake/state.py:181-191 | grows or moves as `Advance` says, posts COLLIDE exactly on a self-collision and unlocks; a one-segment move is IndexError |
| SnakeGame.GameState.Restock | src/pyretro/snake/state.py:177-178 | food is added only to an empty list |
| SnakeGame.GameState.EatAndAdvance | src/pyretro/snake/state.py:180-191 | the found food is removed, then the snake advances |
| SnakeGame.GameState.UpdateSprites | src/pyretro/snake/state.py:176-191 | one tick of `TickOf`: new body and food, COLLIDE posted exactly on a self-collision, and each failure case |
| SnakeGame.Collisions | src/pyretro/snake/state.py:188-190 | a queue of only collision events |
| SnakeGame.NewGameScreen | src/pyretro/snake/state.py:89-110 | a new game's one segment and first food lie on grid cells |
| SnakeGame.SetterNext | src/pyretro/snake/pubsub.py:26-38 | after a new game, a new menu or quitting, a game's snake still has a head |
| SnakeGame.GameNext | src/pyretro/snake/pubsub.py:41-57 | after any game subscriber, a game's snake still has a head |
| SnakeGame.Next | src/pyretro/snake/pubsub.py:68-72 | one event handled by the current state leaves a game's snake with a head; the subscriber loop is the one bound subscriber, since every list holds at most one (`MenuBindingsCover`, `GameBindingsCover`, `GameOverBindingsCover`) |
| SnakeGame.Batch | src/pyretro/snake/engine.py:19-22 | after a batch of events handled in order, a game's snake still has a head |
| SnakeGame.Loop | src/pyretro/snake/engine.py:24-30 | after the turns of the loop, a game's snake still has a head |
| SnakeGame.SetterStaysOnGrid | src/pyretro/snake/pubsub.py:26-38 | the subscribers every state binds leave a game on grid cells |
| SnakeGame.NextStaysOnGrid | src/pyretro/snake/pubsub.py:26-72 | whatever event is handled, the snake and the food stay on grid cells |
| SnakeGame.BatchPostsCollisions | src/pyretro/snake/state.py:188-190 | handling events only ever adds collision events to the queue |
| SnakeGame.BatchSplits | src/pyretro/snake/engine.py:19-22 | handling one batch and then another is handling them as one batch, in arrival order |
| SnakeGame.StartThenSteer | src/pyretro/snake/state.py:64-121 | on the menu, `s` then the left arrow gives a new game heading left and locked; a second arrow before the tick is ignored; `q` then `s` still starts the game, with the loop stopped |
| SnakeGame.CollisionEndsGame | src/pyretro/snake/state.py:100 | with the collision delivered, the next turn starts by moving to the game over screen, scored by the snake's length |
| SnakeGame.AllowedTypes | src/pyretro/snake/state.py:31 | each state allows key presses, and none allows COLLIDE_EVENT |
| SnakeGame.Admitted | src/pyretro/snake/state.py:190 | only events of allowed types stay queued; when all are allowed, all stay |
| SnakeGame.LoopAsWritten | src/pyretro/snake/engine.py:24-30 | the loop with the states' event filters applied to what a turn posts; a game's snake keeps a head |
| SnakeGame.NextKeepsPlaying | src/pyretro/snake/state.py:91-103 | only a collision event leads to the game over screen |
| SnakeGame.BatchKeepsPlaying | src/pyretro/snake/engine.py:19-22 | a batch without collision events never reaches the game over screen |
| SnakeGame.BlockedCollisionNeverEndsGame | src/pyretro/snake/state.py:188-190 | as written, no run of the loop ever reaches the game over screen |
| SnakeGame.Engine.View | src/pyretro/snake/engine.py:12-17 | the engine as a value; a valid engine's game snake has a head |
| SnakeGame.Engine.constructor | src/pyretro/snake/engine.py:12-17 | starts on the menu, not yet active |
| SnakeGame.Engine.ChangeState | src/pyretro/snake/state.py:48-50 | the engine's state is replaced; nothing else changes |
| SnakeGame.Engine.ToGameState | src/pyretro/snake/state.py:52-55 | a fresh game in its initial position |
| SnakeGame.Engine.ToMenuState | src/pyretro/snake/state.py:57-60 | a fresh menu |
| SnakeGame.Engine.ToGameOverState | src/pyretro/snake/state.py:198-204 | a fresh game over screen whose score is the snake's length |
| SnakeGame.Engine.ApplySetter | src/pyretro/snake/pubsub.py:26-38 | new game, new menu, or the loop stopped; the engine's view takes the `SetterNext` step |
| SnakeGame.Engine.ApplyGame | src/pyretro/snake/pubsub.py:41-57 | the effect of each game subscriber: game over, turn, tick, or a common setter; the engine's view takes the `GameNext` step |
| SnakeGame.Engine.HandleMenuEvent | src/pyretro/snake/state.py:75-76 | the bound subscriber acts; an unbound event changes nothing; the view takes the `Next` step |
| SnakeGame.Engine.HandleGameOverEvent | src/pyretro/snake/state.py:225-226 | the bound subscriber acts; an unbound event changes nothing; the view takes the `Next` step |
| SnakeGame.Engine.LookupGame | src/pyretro/snake/pubsub.py:69-70 | the game's subscribers for the event: at most one |
| SnakeGame.Engine.HandleGameEvent | src/pyretro/snake/state.py:123-124 | the bound subscriber acts; an unbound event changes nothing; the view takes the `Next` step |
| SnakeGame.Engine.Dispatch | src/pyretro/snake/engine.py:21-22 | `q` stops the loop, `m` opens a new menu, a collision ends the game with the length as score, `s` on the menu starts a game, and only a game posts or fails; the view takes exactly the `Next` step |
| SnakeGame.Engine.ProcessEvents | src/pyretro/snake/engine.py:19-22 | the engine ends as `Batch` of the queued events says: each event goes, in arrival order, to the state current when it is handled, until one fails; only collision events are left queued |
| SnakeGame.Engine.Turn | src/pyretro/snake/engine.py:26-27 | the new events join the queue and the engine ends as `Batch` of the whole queue says |
| SnakeGame.Engine.Run | src/pyretro/snake/engine.py:24-30 | the engine ends as `Loop` says, turn by turn while active; the loop ends early only after quitting or a failure |
| Snek.ArrowDirection | src/pyretro/snek/state.py:99-106 | exactly the four arrow keys turn the snake |
| Snek.MenuReaction | src/pyretro/snek/state.py:46-54 | `s` starts, `q` quits, whatever the event type; all else is ignored |
| Snek.GameReaction | src/pyretro/snek/state.py:82-108 | tick and collision are recognised by type first; then `q`, `m`, `r` and the arrows by key |
| Snek.OverReaction | src/pyretro/snek/state.py:191-199 | `q`, `r` and `m`, whatever the event type; all else is ignored |
| Snek.GameAgreesOnPresses | src/pyretro/snek/state.py:82-108 | on key presses and internal events the snek game reacts as the canonical bindings do |
| Snek.ScreensAgreeOnPresses | src/pyretro/snek/state.py:46-54 | the menus agree with the canonical ones on every press but `m`, which only the canonical menu binds; the game over screens (lines 191-199) agree on all presses |
| Snek.ReleaseQuitsOnlyInSnek | src/pyretro/snek/state.py:93-94 | releasing `q` quits the snek game but not the canonical one |
| Snek.MenuState.constructor | src/pyretro/snek/state.py:42-44 | keeps the settings |
| Snek.GameOverState.constructor | src/pyretro/snek/state.py:180-189 | keeps the settings and the score |
| Snek.GameState.constructor | src/pyretro/snek/state.py:75-77 | the placeholders are replaced by a reset game |
| Snek.GameState.Reset | src/pyretro/snek/state.py:67-73 | one segment in the centre, one food from the next two draws, heading up |
| Snek.GameState.PopFoundSnakeFood | src/pyretro/snek/state.py:126-135 | pops exactly the found food; together with the rest, a permutation of the food before |
| Snek.GameState.AddSnakeFood | src/pyretro/snek/state.py:137-145 | appends the food found by the search, if the search ends |
| Snek.GameState.AdvanceSnake | src/pyretro/snek/state.py:164-171 | grows or moves as `Advance` says and posts COLLIDE exactly on a self-collision |
| Snek.GameState.Restock | src/pyretro/snek/state.py:160-161 | food is added only to an empty list |
| Snek.GameState.EatAndAdvance | src/pyretro/snek/state.py:163-171 | the found food is removed, then the snake advances |
| Snek.GameState.UpdateSprites | src/pyretro/snek/state.py:159-171 | one tick of `TickOf`, with COLLIDE posted exactly on a self-collision |
| Snek.Engine.constructor | src/pyretro/snek/engine.py:9-13 | starts on the menu, not yet active |
| Snek.Engine.Switch | src/pyretro/snek/state.py:93-98 | new game, quit or new menu |
| Snek.Engine.HandleMenuEvent | src/pyretro/snek/state.py:46-54 | does what `MenuReaction` decides |
| Snek.Engine.HandleGameOverEvent | src/pyretro/snek/state.py:191-199 | does what `OverReaction` decides |
| Snek.Engine.Tick | src/pyretro/snek/state.py:84-86 | one tick of `TickOf`: new body and food with COLLIDE posted exactly on a self-collision, or the failure recorded with the queue untouched |
| Snek.Engine.HandleGameEvent | src/pyretro/snek/state.py:82-108 | does what `GameReaction` decides: a tick that posts COLLIDE exactly on a self-collision, game over with the length as score, immediate turn, or a switch |
| Snek.Engine.Dispatch | src/pyretro/snek/engine.py:15-17 | the current screen does what its reaction decides: `MenuReaction` or `OverReaction` on the menu and game over screens, and in a game the tick, game over, turn or switch of `GameReacted`; `q` stops the loop unless the event is a tick or collision; only a game posts or fails |
| CommandRegistry.Registered | src/snake/controller/commands/registry.py:9-13 | after registering, exactly the old keys and the registered keys are bound |
| CommandRegistry.LastRegistrationWins | src/snake/controller/commands/registry.py:9-13 | the last registration of a key decides its class |
| CommandRegistry.OtherKeysKeep | src/snake/controller/commands/registry.py:9-13 | registering other keys leaves a binding as it was |
| CommandRegistry.ControllerCommandRegistry.constructor | src/snake/controller/commands/registry.py:6-7 | no bindings |
| CommandRegistry.ControllerCommandRegistry.Register | src/snake/controller/commands/registry.py:9-13 | binds the key to the class, replacing any earlier binding |
| CommandRegistry.ControllerCommandRegistry.IsRegistered | src/snake/controller/commands/registry.py:15-16 | true exactly when some binding matches the wrapped event's hash |
| CommandRegistry.ControllerCommandRegistry.CreateCommand | src/snake/controller/commands/registry.py:18-20 | the bound class, or KeyError exactly when the event is unregistered |
| Controller.CommandTable | src/snake/controller/commands/_impl.py:19-58 | the decorators leave exactly the eight bindings |
| Controller.CommandExamples | src/snake/controller/commands/_impl.py:34-60 | the left arrow reaches `SetDirection(Left)` and the tick reaches `MoveSnake` |
| Controller.UnboundEvents | src/snake/controller/commands/_impl.py:19-58 | key releases and other internal event types have no command |
| Controller.PauseAsWritten | src/snake/controller/commands/_impl.py:45-48 | as written, pausing works only if the controller has `is_paused`, and then negates it |
| Controller.PauseAsWrittenRaises | src/snake/controller/commands/_impl.py:45-48 | a controller without `is_paused` raises on the first pause; pausing twice restores the flag |
| Controller.Steering | src/snake/controller/__init__.py:25-31 | at most one requested direction per event |
| Controller.Perform | src/snake/controller/commands/_impl.py:12-60 | what each command does to the controller and its model; the snake keeps a head |
| Controller.Handle | src/snake/controller/__init__.py:28-31 | a registered event runs its bound command; the snake keeps a head |
| Controller.HandleAll | src/snake/controller/__init__.py:25-31 | the events in arrival order until the program ends; the snake keeps a head |
| Controller.RunAll | src/snake/controller/__init__.py:33-40 | the batches turn by turn until the program ends; the snake keeps a head |
| Controller.Concat | src/snake/controller/__init__.py:36-37 | the events of all batches, the first batch first |
| Controller.HandleAllSplits | src/snake/controller/__init__.py:25-31 | handling two runs of events one after the other is handling them as one |
| Controller.RunAllIsHandleAll | src/snake/controller/__init__.py:33-40 | running the batches turn by turn is handling all their events at once |
| Controller.HandleAllSteers | src/snake/controller/__init__.py:25-31 | when only direction commands are bound, the direction becomes the last one asked for and nothing else changes |
| Controller.SnakeGameController.View | src/snake/controller/__init__.py:16-21 | the controller and its model as a value; a valid model's snake has a head |
| Controller.SnakeGameController.constructor | src/snake/controller/__init__.py:16-23 | not running, not paused |
| Controller.SnakeGameController.AlterDirection | src/snake/controller/__init__.py:42-43 | sets the model's direction, with no lock |
| Controller.SnakeGameController.UpdateCoordinates | src/snake/controller/__init__.py:45-46 | one model tick; a search that never ends stops the program and leaves the snake and the food |
| Controller.SnakeGameController.Execute | src/snake/controller/commands/_impl.py:12-60 | each command's effect: turn, exit 0, toggle pause, AttributeError on restart, tick; the controller takes the `Perform` step |
| Controller.SnakeGameController.ProcessEvent | src/snake/controller/__init__.py:28-31 | a registered event executes its bound command; any other changes nothing; the controller takes the `Handle` step |
| Controller.SnakeGameController.ProcessNext | src/snake/controller/__init__.py:26-31 | with only direction commands bound, an event sets its direction or leaves it |
| Controller.SnakeGameController.ProcessEvents | src/snake/controller/__init__.py:25-31 | the controller ends as `HandleAll` of the events says; all events are handled unless the program ends; with only direction commands, the last requested direction wins; unregistered events change nothing |
| Controller.SnakeGameController.Run | src/snake/controller/__init__.py:33-40 | the controller ends as `RunAll` of the batches says, which is `HandleAll` of all their events; running is never cleared; the loop ends early only when the program stops; with only direction commands, every batch is handled and the last requested direction wins |
| Controller.InstallCommands | src/snake/controller/commands/_impl.py:19-58 | importing the commands registers the eight bindings in order |
| LangtonsAnt.Direction.Value | src/pyretro/langtons_ant/enums.py:9-13 | values 0 to 3, from which the direction is recovered |
| LangtonsAnt.TurnRight | src/pyretro/langtons_ant/ant.py:51-53 | stays in 0..3 and is undone by a left turn |
| LangtonsAnt.TurnLeft | src/pyretro/langtons_ant/ant.py:46-49 | on a valid heading, the same as adding 3 modulo 4 |
| LangtonsAnt.TurnsCancel | src/pyretro/langtons_ant/ant.py:46-53 | left then right is the identity; four turns either way are the identity |
| LangtonsAnt.TurnsOnDirections | src/pyretro/langtons_ant/ant.py:46-57 | turns follow UP, RIGHT, DOWN, LEFT clockwise, wrapping round |
| LangtonsAnt.Moved | src/pyretro/langtons_ant/ant.py:63-74 | a move changes one coordinate by the amount; y grows downwards |
| LangtonsAnt.MoveBackUndoes | src/pyretro/langtons_ant/ant.py:63-74 | moving after two right turns undoes a move |
| LangtonsAnt.Coordinates.constructor | src/pyretro/langtons_ant/ant.py:9-12 | stores x and y |
| LangtonsAnt.Coordinates.Value | src/pyretro/langtons_ant/ant.py:14-15 | iterating gives x then y |
| LangtonsAnt.Coordinates.Equals | src/pyretro/langtons_ant/ant.py:17-18 | equal exactly when the fields are; an object equals itself |
| LangtonsAnt.Ant.constructor | src/pyretro/langtons_ant/ant.py:22-32 | keeps the coordinates object itself, and stores the heading's value |
| LangtonsAnt.Ant.Heading | src/pyretro/langtons_ant/ant.py:55-57 | the direction whose value is stored |
| LangtonsAnt.Ant.Radius | src/pyretro/langtons_ant/ant.py:34-36 | half the size, rounded down |
| LangtonsAnt.Ant.Center | src/pyretro/langtons_ant/ant.py:38-44 | the square's corner plus the radius, inside the ant's square |
| LangtonsAnt.Ant.RotateLeft | src/pyretro/langtons_ant/ant.py:46-49 | one quarter turn anticlockwise |
| LangtonsAnt.Ant.RotateRight | src/pyretro/langtons_ant/ant.py:51-53 | one quarter turn clockwise |
| LangtonsAnt.Ant.Move | src/pyretro/langtons_ant/ant.py:63-74 | the shared coordinates move the amount in the heading |
| LangtonsAnt.DefaultIsShared | src/pyretro/langtons_ant/ant.py:25 | two ants on the default coordinates share them: moving one moves the other |
| AntGrid.GridSpec.SquareSize | src/pyretro/langtons_ant/grid.py:13-15 | the square side, both ways |
| AntGrid.GridSpec.GridSize | src/pyretro/langtons_ant/grid.py:17-19 | the board side, both ways |
| AntGrid.AxisIndex | src/pyretro/langtons_ant/grid.py:32 | numpy reads an index exactly when `-n <= i < n`, counting a negative one from the end |
| AntGrid.SquareAt | src/pyretro/langtons_ant/grid.py:32-37 | a position reads a square exactly when both indices are readable |
| AntGrid.Step | src/pyretro/langtons_ant/grid.py:29-41 | a step fails exactly when the ant is off the board |
| AntGrid.StepIsReversible | src/pyretro/langtons_ant/grid.py:29-41 | undoing a step gives back the world before it |
| AntGrid.StepFlipsOneSquare | src/pyretro/langtons_ant/grid.py:29-41 | exactly the ant's square flips colour; the ant turns right exactly on white, then moves one square |
| AntGrid.Grid.constructor | src/pyretro/langtons_ant/grid.py:23-27 | a fresh all-white board of the grid's side |
| AntGrid.Grid.MoveAnt | src/pyretro/langtons_ant/grid.py:29-41 | the board and ant take one `Step`; only the ant's square changes; off the board nothing changes |
| AntGrid.Grid.GetColor | src/pyretro/langtons_ant/grid.py:46-55 | "black" exactly on a black square, IndexError off the board |
| AntGrid.Grid.GetPixelCoordinates | src/pyretro/langtons_ant/grid.py:57-59 | a multiple of the square side, from which division gives the square back |

## Left out

- Rendering is left out because it only draws: `render_sprites`, `draw_onto`, titles, colours, fonts, `iter_squares`, `pygame.display` and logging.
- pygame's timers (`set_timer`) are left out because they depend on the pygame runtime. Ticks and key presses arrive in batches given as parameters, after pygame's event filter. Each canonical state blocks every event type (src/pyretro/snake/state.py:31) and allows back only key presses (state.py:73) or key presses and ticks (state.py:109, 216), so the COLLIDE_EVENT posted at state.py:190 is dropped. The engine of the model delivers it, which is the intended behaviour; `SnakeGame.LoopAsWritten` has the filter, and the finding on src/pyretro/snake/state.py:31 compares the two. The snek copy allows more types and blocks none, so its collision is delivered.
- Randomness is modelled as a stream of raw values given as a parameter. The source's rejection loops have no bound. The model follows them for `redrawLimit` redraws and reports a longer search as `Hung`.
- Hashes are modelled as the tuples they are computed from, so hash collisions are not modelled.
- `Size.__floordiv__` (src/pyretro/snake/structs.py:37-38) and `get_center` (src/pyretro/snake/factories.py:29-30) are left out because no other code uses them.
- The rectangles of title sprites are left out because font metrics decide them.
- The states do not hold their engine; the engine passes itself to the methods that need it. Subscribers do not hold their state, because every binding acts on the state that made it.
- `QuitCommand` ends the program with `sys.exit(0)`. The model records this as `Stop.Exited(0)`.
- `RestartCommand` calls `controller.restart()`, which the controller does not have. The model records this as `Stop.AttributeError`.
- The `register` decorator returns `None`, so the decorated class names become `None` in the module. Nothing reads them, so this is left out.
- Sprites.Snake.Move: requires two segments. The source raises IndexError on a one-segment snake, which `GameRules.Advance` and `Failure.IndexError` model.
- AntGrid.Grid.constructor: requires a non-negative board side, because `np.full` raises on a negative one.
- LangtonsAnt.Coordinates.Equals: compares only with another `Coordinates`. Comparison with other types, which is always false, is left out.
- LangtonsAnt.Ant.Center: returns a position value where the source returns a new `Coordinates` object.
- AntGrid.Grid.GetPixelCoordinates: returns a `Cell` value where the source builds a new `Coordinates` object (src/pyretro/langtons_ant/grid.py:57-59).
- The ant's window loop (src/pyretro/langtons_ant/controller.py) is left out because it only draws and waits.
- src/pyretro/snake/model/sprites/factories.py is not part of this model. `SnakeGameModel` takes only `player_init_pos` from the older copy (`LegacyFactories.PlayerInitPos`). Its food draw is assumed exclusive, `randint(0, grid - 1)`, as the canonical factory draws (`Factories.CoordinateFactory.NewFoodLocation`). The older copy's inclusive draw is the second finding below; with it, food could leave the grid and `FoodOnCells` in `SnakeGameModel.Valid` would not hold.
- src/snake/model/__init__.py is not part of this model. The controller drives `GameModel.SnakeGameModel`.
- The snek copy's factories, structs and events modules are not part of this model. They are taken to have the canonical grid arithmetic, settings fields and event numbers. Two known differences are rendering-only and left out: snek's settings carry one `block_colors` (src/pyretro/snek/const.py:6, src/pyretro/snek/state.py:68) where the canonical ones carry snake and food colours, and snek calls `create_snake_food` with the location alone (src/pyretro/snek/state.py:70, 139, 142), where the canonical factory also takes colours (src/pyretro/snake/factories.py:63).
- The first food of a new game is drawn without looking at the snake (src/pyretro/snake/state.py:105-106). The game's description says it avoids the snake; the model follows the code.
- Sprites.Overlaps: `colliderect` belongs to pygame, which is not part of this model. It is taken to hold when the rectangles share an area. pygame normalises a negative width or height, so such a rectangle could collide there but never does here. No rectangle of the game has a negative size: every one has the positive cell size of playable settings.
- Factories.CoordinateFactory.NewFoodLocation, Factories.CoordinateFactory.MoveLeft, Factories.CoordinateFactory.MoveRight, Factories.CoordinateFactory.MoveUp, Factories.CoordinateFactory.MoveDown and Random.Rng.RandInt: require a non-empty grid, a non-zero screen and a non-empty range. With an empty grid the source raises ValueError (`randint(0, -1)`, src/pyretro/snake/factories.py:23-24); with a zero screen it raises ZeroDivisionError (src/pyretro/snake/factories.py:33). These error paths are not modelled. The game states likewise assume `Structs.Playable` settings and a valid `CoordinateFactory`. The reason: no settings record in the source has an empty grid or a zero cell. Both copies of `DEFAULT_GAME_SETTINGS` name 20-pixel cells on a 20 by 20 grid (src/pyretro/snake/const.py:3-12, src/pyretro/snek/const.py:3-10). The canonical call raises TypeError before any game starts (the finding on src/pyretro/snake/const.py:3-12); without `speed` it is playable (`Structs.DefaultGameSettingsPlayable`).
- SnakeGame.Engine.ProcessEvents: requires that no failure is recorded yet. After an exception the source's loop is gone, so there is nothing to model.
- The canonical subscriber loop (src/pyretro/snake/pubsub.py:68-72) is modelled as the first subscriber of the list only. Every list the states bind has at most one subscriber (`SnakeGame.MenuBindingsCover`, `SnakeGame.GameBindingsCover`, `SnakeGame.GameOverBindingsCover`), so nothing is lost.

## Findings

| source | as written | input that shows it | evidently intended | confidence | as-written member | corrected member |
|---|---|---|---|---|---|---|
| src/pyretro/snake/pubsub.py:36-38 | `QuitSetter` sets `state._owner_engine.active`, but states store `owner_engine` (src/pyretro/snake/state.py:32) | pressing `q` in any state raises AttributeError | stop the loop by clearing `active` | high, not executed | SnakeGame.QuitAsWrittenRaises | SnakeGame.Engine.ApplySetter |
| src/snake/model/sprites/factories.py:29-35 | food indices come from `randint(0, grid)`, whose upper bound is inclusive | an x draw of 5 on a 5-cell grid of 20-pixel cells puts food at x = 100, off the screen; it is never eaten and blocks new food | `randint(0, grid - 1)`, as in src/pyretro/snake/factories.py:22-27 | high, not executed | LegacyFactories.InclusiveDrawExample | Factories.CoordinateFactory.NewFoodLocation |
| src/snake/controller/commands/_impl.py:45-48 | `PauseCommand` reads and writes `controller.is_paused`, but the controller's flag is `_is_paused` (src/snake/controller/__init__.py:21) | pressing space on a new controller raises AttributeError | toggle the pause flag | medium, not executed | Controller.PauseAsWrittenRaises | Controller.SnakeGameController.Execute |
| src/pyretro/snake/state.py:31 | every state blocks all event types, and none allows COLLIDE_EVENT back (state.py:73, 109, 216), so pygame drops the collision event posted at state.py:190 | a snake whose head lands on its body: the game goes on instead of ending | deliver the collision so that `GameOverStateSetter`, bound to it at state.py:100, ends the game | medium, not executed; rests on pygame dropping posted events of blocked types | SnakeGame.BlockedCollisionNeverEndsGame | SnakeGame.CollisionEndsGame |
| src/pyretro/snake/const.py:3-12 | `DEFAULT_GAME_SETTINGS` passes `speed=300`, but the `GameSettings` dataclass (src/pyretro/snake/structs.py:50-60) has no `speed` field | importing the module raises TypeError | the same call without `speed`; the tick period of 300 ms is set by the game state's timer (src/pyretro/snake/state.py:110) | high, not executed | Structs.ShippedSettingsRaise | Structs.DefaultGameSettingsPlayable |
