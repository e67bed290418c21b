/**
 * pygame events and the wrappers that key them in a dictionary
 * (src/pyretro/snake/events.py).
 */
module Events {
  import opened Wrappers

  // pygame 2 event types and key codes used by the bindings.
  const KEYDOWN: int := 768
  const KEYUP: int := 769
  const K_SPACE: int := 32
  const K_m: int := 109
  const K_q: int := 113
  const K_r: int := 114
  const K_s: int := 115
  const K_RIGHT: int := 1073741903
  const K_LEFT: int := 1073741904
  const K_DOWN: int := 1073741905
  const K_UP: int := 1073741906

  /**
   * The two `pygame.event.custom_type()` values of the module: the game
   * tick and the self-collision signal. Only their distinctness from each
   * other and from KEYDOWN matters.
   */
  const CYCLE_EVENT: int := 32867
  const COLLIDE_EVENT: int := 32868

  /**
   * A pygame event: its type, its `key` attribute when it has one, and
   * any further attributes (modifiers, scancode, ...).
   */
  datatype RawEvent = RawEvent(eventType: int, key: Option<int>, extra: seq<int>)

  function KeyDown(k: int): RawEvent {
    RawEvent(KEYDOWN, Some(k), [])
  }

  function Internal(t: int): RawEvent {
    RawEvent(t, None, [])
  }

  /** `KeyEvent(e)` or `InternalEvent(e)`; the event is kept in the slot `event`. */
  datatype WrappedEvent = KeyEvent(event: RawEvent) | InternalEvent(event: RawEvent)

  /** The key under which a dictionary files a wrapper: its class and its hash input. */
  datatype EventKey = KeyHash(eventType: int, key: int) | InternalHash(eventType: int)

  /** `wrap_event(e)`: a key event exactly when `e` has a `key` attribute. */
  function WrapEvent(e: RawEvent): (w: WrappedEvent)
    ensures w.event == e
    ensures w.KeyEvent? <==> e.key.Some?
  {
    if e.key.Some? then KeyEvent(e) else InternalEvent(e)
  }

  /** `EventWrapper.type`: the wrapped event's type. */
  function Type(w: WrappedEvent): (t: int)
    ensures t == w.event.eventType
  {
    match w
    case KeyEvent(e) => e.eventType
    case InternalEvent(e) => e.eventType
  }

  /**
   * `__hash__`: `(type, key)` for a key event, `type` for an internal one;
   * `None` when a key event wraps an event without `key` (AttributeError).
   */
  function Hash(w: WrappedEvent): (h: Option<EventKey>)
    ensures w.KeyEvent? && w.event.key.Some? ==> h == Some(KeyHash(w.event.eventType, w.event.key.value))
    ensures w.InternalEvent? ==> h == Some(InternalHash(w.event.eventType))
    ensures h.None? <==> w.KeyEvent? && w.event.key.None?
  {
    match w
    case KeyEvent(e) => if e.key.Some? then Some(KeyHash(e.eventType, e.key.value)) else None
    case InternalEvent(e) => Some(InternalHash(e.eventType))
  }

  /** A wrapped event is always hashable. */
  lemma WrappedEventsAreHashable(e: RawEvent)
    ensures Hash(WrapEvent(e)).Some?
    ensures e.key.Some? ==> Hash(WrapEvent(e)).value == KeyHash(e.eventType, e.key.value)
    ensures e.key.None? ==> Hash(WrapEvent(e)).value == InternalHash(e.eventType)
  {
  }

  /** The key a raw event is looked up under. */
  function LookupKey(e: RawEvent): (k: EventKey)
    ensures Hash(WrapEvent(e)) == Some(k)
  {
    Hash(WrapEvent(e)).value
  }

  /** Attributes other than type and key do not change where an event is filed. */
  lemma LookupIgnoresExtras(e1: RawEvent, e2: RawEvent)
    requires e1.eventType == e2.eventType && e1.key == e2.key
    ensures LookupKey(e1) == LookupKey(e2)
  {
  }

  /** Key events with different keys, or of different types, are filed apart. */
  lemma LookupSeparatesKeys(e1: RawEvent, e2: RawEvent)
    ensures LookupKey(e1) == LookupKey(e2) <==> e1.eventType == e2.eventType && e1.key == e2.key
  {
  }

  /**
   * `a.__eq__(b)`: `None` stands for NotImplemented, returned when `b` is
   * of another class. Two wrappers of one class compare their `__dict__`,
   * which is empty since the event lives in a slot, so they are equal.
   */
  function Eq(a: WrappedEvent, b: WrappedEvent): (r: Option<bool>)
    ensures r.None? <==> a.KeyEvent? != b.KeyEvent?
    ensures r.Some? ==> r.value
  {
    if a.KeyEvent? == b.KeyEvent? then Some(true) else None
  }

  /**
   * Python's `a == b` for two distinct wrapper objects: when both sides
   * answer NotImplemented, the comparison falls back to identity.
   */
  function Equals(a: WrappedEvent, b: WrappedEvent): (r: bool)
    ensures r <==> a.KeyEvent? == b.KeyEvent?
  {
    match Eq(a, b)
    case Some(v) => v
    case None => (match Eq(b, a) case Some(v) => v case None => false)
  }

  /** A key event never equals an internal event, whatever they wrap. */
  lemma KeyNeverEqualsInternal(a: RawEvent, b: RawEvent)
    ensures !Equals(KeyEvent(a), InternalEvent(b)) && !Equals(InternalEvent(b), KeyEvent(a))
  {
  }

  /** Two key events compare equal even when they wrap different events. */
  lemma SameClassAlwaysEqual()
    ensures Equals(KeyEvent(KeyDown(K_UP)), KeyEvent(KeyDown(K_DOWN)))
    ensures KeyDown(K_UP) != KeyDown(K_DOWN)
  {
  }

  /**
   * A dictionary finds the entry of `b` when looking up `a` exactly when
   * their hashes agree and they compare equal; hash collisions between
   * different keys are not modelled, so the hash stands for the key.
   */
  predicate DictMatch(a: WrappedEvent, b: WrappedEvent) {
    Hash(a).Some? && Hash(a) == Hash(b) && Equals(a, b)
  }

  /** Lookup is decided by the hash key alone. */
  lemma DictMatchIsSameKey(e1: RawEvent, e2: RawEvent)
    ensures DictMatch(WrapEvent(e1), WrapEvent(e2)) <==> LookupKey(e1) == LookupKey(e2)
  {
  }
}
