/**
 * The event wrappers of the controller variant
 * (src/snake/controller/commands/events.py). They differ from the
 * game's own wrappers in one respect: an internal event reports the
 * module's `INTERNAL_EVENT` type whatever it wraps.
 */
module CommandEvents {
  import opened Wrappers
  import Events

  /** `INTERNAL_EVENT`, the module's `pygame.event.custom_type()` (the tick). */
  const INTERNAL_EVENT: int := 32867

  /** `wrap_event(e)`: a key event exactly when `e` has a `key` attribute. */
  function WrapEvent(e: Events.RawEvent): (w: Events.WrappedEvent)
    ensures w.event == e
    ensures w.KeyEvent? <==> e.key.Some?
  {
    if e.key.Some? then Events.KeyEvent(e) else Events.InternalEvent(e)
  }

  /** `type`: passed through for key events, the constant for internal ones. */
  function Type(w: Events.WrappedEvent): (t: int)
    ensures w.KeyEvent? ==> t == w.event.eventType
    ensures w.InternalEvent? ==> t == INTERNAL_EVENT
  {
    match w
    case KeyEvent(e) => e.eventType
    case InternalEvent(_) => INTERNAL_EVENT
  }

  /** `KeyEvent.key`: passed through (`None` is AttributeError). */
  function Key(w: Events.WrappedEvent): (k: Option<int>)
    requires w.KeyEvent?
    ensures k == w.event.key
  {
    match w
    case KeyEvent(e) => e.key
  }

  /** Every keyless event reports the tick type, yet is filed under its own type. */
  lemma InternalTypeIsConstant(t: int)
    ensures Type(WrapEvent(Events.Internal(t))) == INTERNAL_EVENT
    ensures Events.Hash(WrapEvent(Events.Internal(t))) == Some(Events.InternalHash(t))
  {
  }

  /** The hashing and equality are those of the game's wrappers. */
  lemma SameFilingAsGameWrappers(e: Events.RawEvent)
    ensures WrapEvent(e) == Events.WrapEvent(e)
    ensures Events.Hash(WrapEvent(e)) == Some(Events.LookupKey(e))
  {
  }
}
