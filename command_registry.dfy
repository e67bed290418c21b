/**
 * `ControllerCommandRegistry` (src/snake/controller/commands/registry.py):
 * one command class per wrapped event. Its dictionary is keyed by wrapped
 * events, so, as for the subscriber table, it is modelled as a map from
 * the wrapper's hash key (`Events.DictMatchIsSameKey`).
 */
module CommandRegistry {
  import opened Wrappers
  import opened Events

  /** The table after registering each pair of `regs` in turn onto `base`. */
  function Registered<C>(base: map<EventKey, C>, regs: seq<(EventKey, C)>): (m: map<EventKey, C>)
    ensures forall k :: k in m <==> k in base || exists i :: 0 <= i < |regs| && regs[i].0 == k
    decreases |regs|
  {
    if regs == [] then base
    else
      var last := regs[|regs| - 1];
      var m := Registered(base, regs[..|regs| - 1])[last.0 := last.1];
      assert regs == regs[..|regs| - 1] + [last];
      m
  }

  /** Registering one more pair updates the table built from the pairs before it. */
  lemma RegisteredSnoc<C>(base: map<EventKey, C>, regs: seq<(EventKey, C)>, i: nat)
    requires i < |regs|
    ensures Registered(base, regs[..i + 1]) == Registered(base, regs[..i])[regs[i].0 := regs[i].1]
  {
    assert regs[..i + 1][..i] == regs[..i];
  }

  /** The last registration of a key decides its class. */
  lemma {:induction false} LastRegistrationWins<C>(base: map<EventKey, C>, regs: seq<(EventKey, C)>, i: nat)
    requires i < |regs|
    requires forall j :: i < j < |regs| ==> regs[j].0 != regs[i].0
    ensures Registered(base, regs)[regs[i].0] == regs[i].1
    decreases |regs|
  {
    if i < |regs| - 1 {
      var front := regs[..|regs| - 1];
      assert front[i] == regs[i];
      LastRegistrationWins(base, front, i);
    }
  }

  /** Registering only other keys leaves a key's binding as it was. */
  lemma {:induction false} OtherKeysKeep<C>(base: map<EventKey, C>, regs: seq<(EventKey, C)>, k: EventKey)
    requires forall j :: 0 <= j < |regs| ==> regs[j].0 != k
    requires k in base
    ensures k in Registered(base, regs) && Registered(base, regs)[k] == base[k]
    decreases |regs|
  {
    if regs != [] {
      OtherKeysKeep(base, regs[..|regs| - 1], k);
    }
  }

  class ControllerCommandRegistry<C> {
    /** `__bindings`. */
    var bindings: map<EventKey, C>

    /** `ControllerCommandRegistry()`: no bindings. */
    constructor ()
      ensures bindings == map[]
    {
      bindings := map[];
    }

    /**
     * `register(e)(cls)`: binds the event's key to `cls`, replacing any
     * earlier binding of that key.
     */
    method Register(k: EventKey, cls: C)
      modifies this
      ensures bindings == old(bindings)[k := cls]
      ensures bindings == Registered(old(bindings), [(k, cls)])
    {
      bindings := bindings[k := cls];
    }

    /** `is_registered(e)`: the wrapped event has a binding. */
    function IsRegistered(e: RawEvent): (b: bool)
      reads this
      ensures b <==> exists k :: k in bindings && Hash(WrapEvent(e)) == Some(k)
    {
      LookupKey(e) in bindings
    }

    /**
     * `create_command(e, controller)`: the class bound to the event (the
     * command built from it holds the controller). An unbound event is
     * the dictionary's KeyError, `None`.
     */
    method CreateCommand(e: RawEvent) returns (cls: Option<C>)
      ensures cls.Some? <==> IsRegistered(e)
      ensures cls.Some? ==> cls.value == bindings[LookupKey(e)]
    {
      var k := LookupKey(e);
      if k !in bindings {
        return None;
      }
      cls := Some(bindings[k]);
    }
  }
}
