/**
 * The `BeforeAndAfterEvents` trait: no baseline events; a class-level registry
 * records every base name passed to `beforeEvent` / `afterEvent`, and each new
 * instance makes the base, before and after names of the registered events
 * observable.
 */
module BeforeAndAfterEvents {
  import opened EventNames
  import opened Host
  import opened Dispatch

  /** The idempotent append of `registerDynamicEvent`: add `e` unless it is already listed. */
  function AppendNew(list: seq<string>, e: string): (r: seq<string>)
    ensures e in r
    ensures |list| <= |r| && r[..|list|] == list
    ensures forall x :: x in r <==> x in list || x == e
    ensures e in list <==> r == list
    ensures NoDup(list) ==> NoDup(r)
  {
    if e in list then list else list + [e]
  }

  /** Appending a name a second time changes nothing. */
  lemma AppendNewIdempotent(list: seq<string>, e: string)
    ensures AppendNew(AppendNew(list, e), e) == AppendNew(list, e)
  {
  }

  /** The static `$dynamicBeforeAfterEvents`: for each model class, its registered base names. */
  class EventRegistry {
    var events: map<ClassId, seq<string>>

    /** No class lists a base name twice. */
    ghost predicate Valid()
      reads this
    {
      forall c :: c in events ==> NoDup(events[c])
    }

    constructor ()
      ensures Valid() && events == map[]
    {
      events := map[];
    }

    /** `$dynamicBeforeAfterEvents[$cls] ?? []`. */
    function EventsFor(cls: ClassId): (registered: seq<string>)
      reads this
      ensures cls in events ==> registered == events[cls]
      ensures cls !in events ==> registered == []
    {
      if cls in events then events[cls] else []
    }

    /**
     * `registerDynamicEvent`: afterwards `e` is listed for `cls`; earlier entries
     * and their order are kept, other classes are untouched, and a name already
     * listed leaves the registry unchanged.
     */
    method RegisterDynamicEvent(cls: ClassId, e: string)
      requires Valid()
      modifies this
      ensures Valid()
      ensures events == old(events)[cls := AppendNew(old(EventsFor(cls)), e)]
      ensures e in EventsFor(cls)
      ensures old(e in EventsFor(cls)) ==> events == old(events)
      ensures forall c :: c != cls ==> EventsFor(c) == old(EventsFor(c))
    {
      if cls !in events {
        events := events[cls := []];
      }
      if e !in events[cls] {
        events := events[cls := events[cls] + [e]];
      }
    }
  }

  /**
   * The names the initialiser adds: `E, before<E>, after<E>` for each
   * registered event `E`, in registration order.
   */
  function TripleNames(events: seq<string>): (names: seq<string>)
    ensures |names| == 3 * |events|
  {
    if events == [] then []
    else
      var last := events[|events| - 1];
      TripleNames(events[..|events| - 1]) + [last, Derived(Before, last), Derived(After, last)]
  }

  /** The names of the `i`-th event sit at positions 3 * i onwards. */
  lemma {:induction false} TripleNamesAt(events: seq<string>, i: nat)
    requires i < |events|
    ensures var names := TripleNames(events);
            names[3 * i] == events[i]
            && names[3 * i + 1] == Derived(Before, events[i])
            && names[3 * i + 2] == Derived(After, events[i])
  {
    var init, last := events[..|events| - 1], events[|events| - 1];
    var front, group := TripleNames(init), [last, Derived(Before, last), Derived(After, last)];
    assert TripleNames(events) == front + group;
    if i < |init| {
      TripleNamesAt(init, i);
      assert events[i] == init[i];
      assert 3 * i + 2 < |front|;
    } else {
      assert i == |init| && 3 * i == |front|;
    }
  }

  /** One of the three names the initialiser adds for event `e`. */
  predicate InTriple(name: string, e: string)
  {
    name == e || name == Derived(Before, e) || name == Derived(After, e)
  }

  /** A name is added exactly when it is a registered event or the before or after name of one. */
  lemma {:induction false} TripleNamesMembership(events: seq<string>, name: string)
    ensures name in TripleNames(events) <==> exists e :: e in events && InTriple(name, e)
  {
    if events != [] {
      var init, last := events[..|events| - 1], events[|events| - 1];
      var group := [last, Derived(Before, last), Derived(After, last)];
      assert events == init + [last];
      assert TripleNames(events) == TripleNames(init) + group;
      TripleNamesMembership(init, name);
      if name in TripleNames(events) {
        if name in TripleNames(init) {
          var e :| e in init && InTriple(name, e);
          assert e in events;
        } else {
          assert name in group;
          assert InTriple(name, last);
        }
      }
      if exists e :: e in events && InTriple(name, e) {
        var e :| e in events && InTriple(name, e);
        if e == last {
          assert name in group;
        } else {
          assert e in init;
        }
      }
    }
  }

  /** Registering one more event extends the names of the earlier ones by its triple. */
  lemma {:induction false} TripleNamesAppendNew(events: seq<string>, e: string)
    ensures TripleNames(AppendNew(events, e)) ==
              if e in events then TripleNames(events) else TripleNames(events) + [e, Derived(Before, e), Derived(After, e)]
  {
    if e !in events {
      assert (events + [e])[..|events|] == events;
    }
  }

  /** The foreach loop of the initialiser that builds `$eventsToAdd`. */
  method BuildTripleNames(events: seq<string>) returns (eventsToAdd: seq<string>)
    ensures eventsToAdd == TripleNames(events)
  {
    eventsToAdd := [];
    var i := 0;
    while i < |events|
      invariant 0 <= i <= |events|
      invariant eventsToAdd == TripleNames(events[..i])
    {
      assert events[..i + 1][..i] == events[..i];
      eventsToAdd := eventsToAdd + [events[i], Derived(Before, events[i]), Derived(After, events[i])];
      i := i + 1;
    }
    assert events[..|events|] == events;
  }

  /**
   * `initializeBeforeAndAfterEvents`: the triples of the events registered for
   * the instance's class join its observable list; a class never registered
   * adds nothing.
   */
  method InitializeBeforeAndAfterEvents(m: Model, registry: EventRegistry)
    modifies m
    ensures m.observable == old(m.observable) + TripleNames(registry.EventsFor(m.cls))
    ensures m.cls !in registry.events ==> m.observable == old(m.observable)
    ensures m.trace == old(m.trace)
  {
    var events := registry.EventsFor(m.cls);
    var eventsToAdd := BuildTripleNames(events);
    m.AddObservableEvents(eventsToAdd);
  }

  /** A new instance of a model class using the trait: host construction, then the initialiser. */
  method NewModel(registry: EventRegistry, cls: ClassId, observables: seq<string>) returns (m: Model)
    ensures fresh(m) && m.cls == cls && m.trace == []
    ensures m.observable == observables + TripleNames(registry.EventsFor(cls))
    ensures forall e :: e in registry.EventsFor(cls) ==>
              e in m.observable && Derived(Before, e) in m.observable && Derived(After, e) in m.observable
  {
    m := new Model(cls, observables);
    InitializeBeforeAndAfterEvents(m, registry);
    forall e | e in registry.EventsFor(cls)
      ensures e in m.observable && Derived(Before, e) in m.observable && Derived(After, e) in m.observable
    {
      TripleNamesMembership(registry.EventsFor(cls), e);
      TripleNamesMembership(registry.EventsFor(cls), Derived(Before, e));
      TripleNamesMembership(registry.EventsFor(cls), Derived(After, e));
    }
  }

  /**
   * `beforeEvent` / `afterEvent`: record the base name for the class, then
   * register the callback under the derived name.
   */
  method RegisterPhaseEvent(registry: EventRegistry, store: ListenerStore, cls: ClassId,
                            p: Phase, event: string, callback: Listener)
    requires registry.Valid()
    modifies registry, store
    ensures registry.Valid()
    ensures registry.events == old(registry.events)[cls := AppendNew(old(registry.EventsFor(cls)), event)]
    ensures store.listeners == old(store.listeners)[ListenerKey(cls, Derived(p, event)) :=
              old(store.ListenersFor(cls, Derived(p, event))) + [callback]]
  {
    registry.RegisterDynamicEvent(cls, event);
    var eventName := Derived(p, event);
    store.RegisterModelEvent(cls, eventName, callback);
  }

  /** `beforeEvent(event, callback)`. */
  method BeforeEvent(registry: EventRegistry, store: ListenerStore, cls: ClassId, event: string, callback: Listener)
    requires registry.Valid()
    modifies registry, store
    ensures registry.Valid()
    ensures registry.events == old(registry.events)[cls := AppendNew(old(registry.EventsFor(cls)), event)]
    ensures store.listeners == old(store.listeners)[ListenerKey(cls, Derived(Before, event)) :=
              old(store.ListenersFor(cls, Derived(Before, event))) + [callback]]
  {
    RegisterPhaseEvent(registry, store, cls, Before, event, callback);
  }

  /** `afterEvent(event, callback)`. */
  method AfterEvent(registry: EventRegistry, store: ListenerStore, cls: ClassId, event: string, callback: Listener)
    requires registry.Valid()
    modifies registry, store
    ensures registry.Valid()
    ensures registry.events == old(registry.events)[cls := AppendNew(old(registry.EventsFor(cls)), event)]
    ensures store.listeners == old(store.listeners)[ListenerKey(cls, Derived(After, event)) :=
              old(store.ListenersFor(cls, Derived(After, event))) + [callback]]
  {
    RegisterPhaseEvent(registry, store, cls, After, event, callback);
  }

  /**
   * Registration and construction agree: after `beforeEvent(e, cb)` or
   * `afterEvent(e, cb)`, an instance of the class built afterwards observes
   * the derived name `cb` was registered under, so the wrapper fires that
   * name when `e` is dispatched on it.
   */
  method RegisterThenConstruct(registry: EventRegistry, store: ListenerStore, cls: ClassId,
                               p: Phase, e: string, callback: Listener, observables: seq<string>)
    returns (m: Model)
    requires registry.Valid()
    modifies registry, store
    ensures fresh(m) && m.cls == cls && m.trace == []
    ensures e in m.observable && Derived(p, e) in m.observable
    ensures store.ListenersFor(cls, Derived(p, e)) == old(store.ListenersFor(cls, Derived(p, e))) + [callback]
  {
    RegisterPhaseEvent(registry, store, cls, p, e, callback);
    m := NewModel(registry, cls, observables);
    assert Derived(p, e) == Derived(Before, e) || Derived(p, e) == Derived(After, e);
  }
}
