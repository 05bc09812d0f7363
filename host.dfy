/**
 * What the core needs from the host object-relational mapper, reduced to
 * values: listener callbacks, call arguments, the result of firing an event,
 * and the host's per-class listener store.
 */
module Host {

  /** Identity of a model class (`static::class`). */
  type ClassId = string

  datatype Option<T> = None | Some(value: T)

  /** A listener callback; the core only passes it on, so its identity is all it has. */
  datatype Listener = Listener(id: nat)

  /** An argument of a static call: `Callable` when PHP's `is_callable` holds of it. */
  datatype Value = Callable(callback: Listener) | NotCallable

  /**
   * What the host's own `fireModelEvent` returns: the boolean `false` (the
   * stop sentinel) or some other value.
   */
  datatype Outcome = Stop | Proceed(value: int)

  /** One call of the host's `fireModelEvent`: the event name and the halt flag. */
  datatype Firing = Firing(name: string, halt: bool)

  /** The host's `fireModelEvent(name, halt)` on one model instance. */
  type HostFire = (string, bool) -> Outcome

  predicate NoDup<T(==)>(s: seq<T>)
  {
    forall i, j :: 0 <= i < j < |s| ==> s[i] != s[j]
  }

  datatype ListenerKey = ListenerKey(cls: ClassId, event: string)

  /**
   * The host's listener store: `registerModelEvent(name, callback)` on class
   * `cls` appends the callback to the listeners of `name` for that class.
   */
  class ListenerStore {
    var listeners: map<ListenerKey, seq<Listener>>

    constructor ()
      ensures listeners == map[]
    {
      listeners := map[];
    }

    function ListenersFor(cls: ClassId, event: string): seq<Listener>
      reads this
    {
      var key := ListenerKey(cls, event);
      if key in listeners then listeners[key] else []
    }

    /** Registration keeps earlier listeners and their order and touches no other key. */
    method RegisterModelEvent(cls: ClassId, event: string, callback: Listener)
      modifies this
      ensures listeners == old(listeners)[ListenerKey(cls, event) := old(ListenersFor(cls, event)) + [callback]]
      ensures ListenersFor(cls, event) == old(ListenersFor(cls, event)) + [callback]
    {
      listeners := listeners[ListenerKey(cls, event) := ListenersFor(cls, event) + [callback]];
    }
  }
}
