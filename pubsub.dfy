/**
 * The subscriber table of src/pyretro/snake/pubsub.py. The table is a
 * `defaultdict` of lists keyed by wrapped events; it is modelled as a map
 * from the hash key of the wrapper (see `Events.DictMatchIsSameKey`).
 * Running the subscribers is done by the state that owns the table, since
 * their effects are effects on that state.
 */
module PubSub {
  import opened Events

  class EventHandler<S> {
    var table: map<EventKey, seq<S>>

    /** `EventHandler(bindings)`. */
    constructor (bindings: map<EventKey, seq<S>>)
      ensures table == bindings
      ensures forall k :: Subscribers(k) == (if k in bindings then bindings[k] else [])
    {
      table := bindings;
    }

    /** `EventHandler()`: `subscribers or {}` gives an empty table. */
    constructor Empty()
      ensures table == map[]
      ensures forall k :: Subscribers(k) == []
    {
      table := map[];
    }

    /** The subscribers filed under `k`; the default factory gives `[]`. */
    function Subscribers(k: EventKey): seq<S>
      reads this
    {
      if k in table then table[k] else []
    }

    /**
     * `add_subscriber(key, s)`: `s` is appended to the key's list and the
     * handler itself is returned.
     */
    method AddSubscriber(k: EventKey, s: S) returns (self: EventHandler<S>)
      modifies this
      ensures self == this
      ensures table == old(table)[k := old(Subscribers(k)) + [s]]
      ensures Subscribers(k) == old(Subscribers(k)) + [s]
      ensures forall k' :: k' != k ==> Subscribers(k') == old(Subscribers(k'))
    {
      table := table[k := Subscribers(k) + [s]];
      self := this;
    }

    /**
     * `self._subscribers[wrap_event(e)]`: the subscribers of the event's
     * key, read through the default dictionary, which files an empty list
     * under a key it did not hold. What any key maps to is unchanged.
     */
    method Lookup(e: RawEvent) returns (subs: seq<S>)
      modifies this
      ensures subs == old(Subscribers(LookupKey(e)))
      ensures LookupKey(e) in table
      ensures table.Keys == old(table.Keys) + {LookupKey(e)}
      ensures forall k :: Subscribers(k) == old(Subscribers(k))
    {
      var w := WrapEvent(e);
      var h := Hash(w);
      var k := h.value;
      if k !in table {
        table := table[k := []];
      }
      subs := table[k];
    }
  }
}
