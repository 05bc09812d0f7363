/**
 * Concrete runs of both traits, taken from the package's feature tests: the
 * host firings each dispatch makes and the listeners each registration leaves.
 */
module Scenarios {
  import opened EventNames
  import opened Host
  import opened Dispatch
  import A = AddBeforeAndAfterEvents
  import B = BeforeAndAfterEvents

  /** A host whose listeners never return `false`. */
  function AlwaysProceed(name: string, halt: bool): Outcome
  {
    Proceed(0)
  }

  /** A host whose listeners return `false` for exactly one event name. */
  function StopsOn(stopName: string): HostFire
  {
    (name: string, halt: bool) => if name == stopName then Stop else Proceed(0)
  }

  /** `ucfirst` of a literal whose first character is an ASCII lower-case letter. */
  lemma UcfirstLiteral(s: string, t: string)
    requires |s| == |t| > 0 && IsAsciiLower(s[0]) && t[0] as int == s[0] as int - 32 && s[1..] == t[1..]
    ensures Ucfirst(s) == t
  {
    assert Ucfirst(s) == [ToUpper(s[0])] + s[1..];
    assert [t[0]] + t[1..] == t;
  }

  lemma PublishingNames()
    ensures Derived(Before, "publishing") == "beforePublishing"
    ensures Derived(After, "publishing") == "afterPublishing"
  {
    UcfirstLiteral("publishing", "Publishing");
    assert "before" + "Publishing" == "beforePublishing";
    assert "after" + "Publishing" == "afterPublishing";
  }

  const CustomModelEvents: seq<string> := ["publishing", "published", "archiving"]

  /** A new `ModelWithCustomEvents`, whose `$beforeAndAfterEvents` lists three custom events. */
  method NewModelWithCustomEvents() returns (m: Model)
    ensures fresh(m) && m.trace == []
    ensures "beforePublishing" in m.observable && "afterPublishing" in m.observable
  {
    m := A.NewModel("ModelWithCustomEvents", [], Some(CustomModelEvents));
    PublishingNames();
    assert "publishing" in A.DefaultEvents() + CustomModelEvents;
    A.PairNamesMembership(A.DefaultEvents() + CustomModelEvents, "beforePublishing");
    A.PairNamesMembership(A.DefaultEvents() + CustomModelEvents, "afterPublishing");
  }

  /** Firing a custom event wraps it: before, base, then after with halt off. */
  method CustomEventOrder() returns (trace: seq<Firing>, r: Outcome)
    ensures trace == [Firing("beforePublishing", true), Firing("publishing", true), Firing("afterPublishing", false)]
    ensures r == Proceed(0)
  {
    var m := NewModelWithCustomEvents();
    PublishingNames();
    r := m.FireModelEvent(AlwaysProceed, "publishing");
    trace := m.trace;
  }

  /** A before listener returning `false` stops the dispatch before the base event. */
  method VetoedCustomEvent() returns (trace: seq<Firing>, r: Outcome)
    ensures trace == [Firing("beforePublishing", true)]
    ensures r == Stop
  {
    var m := NewModelWithCustomEvents();
    PublishingNames();
    r := m.FireModelEvent(StopsOn("beforePublishing"), "publishing", true);
    trace := m.trace;
  }

  /** A call of the magic router whose argument is not callable raises the invalid-argument error. */
  lemma InvalidMagicCall()
    ensures A.ResolveStaticCall("beforeInvalidEvent", [NotCallable])
            == A.InvalidArgument(A.InvalidArgumentMessage("beforeInvalidEvent"))
    ensures A.ResolveStaticCall("nonExistentMethod", []) == A.Forward("nonExistentMethod", [])
  {
    A.MatchEventMethodComplete(Before, "InvalidEvent");
    assert Prefix(Before) + "InvalidEvent" == "beforeInvalidEvent";
  }

  lemma CreatingNames()
    ensures Derived(Before, "creating") == "beforeCreating"
    ensures Derived(After, "creating") == "afterCreating"
  {
    UcfirstLiteral("creating", "Creating");
    assert "before" + "Creating" == "beforeCreating";
    assert "after" + "Creating" == "afterCreating";
  }

  /** `beforeEvent('creating', ...)` and `afterEvent('creating', ...)` on a fresh class. */
  method RegisterAroundCreating() returns (registry: B.EventRegistry, store: ListenerStore)
    ensures fresh(registry) && registry.Valid()
    ensures registry.EventsFor("TestModel") == ["creating"]
    ensures store.ListenersFor("TestModel", "beforeCreating") == [Listener(1)]
    ensures store.ListenersFor("TestModel", "afterCreating") == [Listener(2)]
  {
    registry := new B.EventRegistry();
    store := new ListenerStore();
    CreatingNames();
    B.BeforeEvent(registry, store, "TestModel", "creating", Listener(1));
    assert registry.EventsFor("TestModel") == ["creating"];
    B.AfterEvent(registry, store, "TestModel", "creating", Listener(2));
  }

  /** When the base event itself returns `false`, the after phase is skipped and `false` is returned. */
  method BaseStopSkipsAfter() returns (trace: seq<Firing>, r: Outcome)
    ensures trace == [Firing("beforeCreating", true), Firing("creating", true)]
    ensures r == Stop
  {
    var registry, _ := RegisterAroundCreating();
    var m := B.NewModel(registry, "TestModel", []);
    CreatingNames();
    assert m.observable == ["creating", "beforeCreating", "afterCreating"];
    var host := StopsOn("creating");
    assert host("beforeCreating", true) == Proceed(0) && host("creating", true) == Stop;
    r := m.FireModelEvent(host, "creating", true);
    trace := m.trace;
  }

  lemma PersistentEventNames()
    ensures Derived(Before, "persistentEvent") == "beforePersistentEvent"
    ensures Derived(After, "persistentEvent") == "afterPersistentEvent"
  {
    UcfirstLiteral("persistentEvent", "PersistentEvent");
    assert "before" + "PersistentEvent" == "beforePersistentEvent";
    assert "after" + "PersistentEvent" == "afterPersistentEvent";
  }

  /** An event registered on the class is wrapped on every instance constructed afterwards. */
  method PersistsAcrossInstances() returns (trace1: seq<Firing>, trace2: seq<Firing>)
    ensures trace1 == trace2 == [Firing("beforePersistentEvent", true), Firing("persistentEvent", true),
                                 Firing("afterPersistentEvent", false)]
  {
    var registry := new B.EventRegistry();
    var store := new ListenerStore();
    B.BeforeEvent(registry, store, "TestModel", "persistentEvent", Listener(1));
    assert registry.EventsFor("TestModel") == ["persistentEvent"];
    PersistentEventNames();
    var m1 := B.NewModel(registry, "TestModel", []);
    assert m1.observable == ["persistentEvent", "beforePersistentEvent", "afterPersistentEvent"];
    var m2 := B.NewModel(registry, "TestModel", []);
    assert m2.observable == m1.observable;
    var _ := m1.FireModelEvent(AlwaysProceed, "persistentEvent", true);
    var _ := m2.FireModelEvent(AlwaysProceed, "persistentEvent", true);
    trace1, trace2 := m1.trace, m2.trace;
  }

  /** With nothing registered, a dispatch fires only the base event and returns its result. */
  method UnregisteredEventPassesThrough() returns (trace: seq<Firing>, r: Outcome)
    ensures trace == [Firing("brandNewEvent", true)]
    ensures r == Proceed(0)
  {
    var registry := new B.EventRegistry();
    var m := B.NewModel(registry, "TestModel", []);
    r := m.FireModelEvent(AlwaysProceed, "brandNewEvent", true);
    trace := m.trace;
  }

  lemma SameEventNames()
    ensures Derived(Before, "sameEvent") == "beforeSameEvent"
    ensures Derived(After, "sameEvent") == "afterSameEvent"
  {
    UcfirstLiteral("sameEvent", "SameEvent");
    assert "before" + "SameEvent" == "beforeSameEvent";
    assert "after" + "SameEvent" == "afterSameEvent";
  }

  /**
   * Registering the same event twice keeps one registry entry (so one triple of
   * observable names) but both listeners, in registration order.
   */
  method RepeatedRegistration()
    returns (registered: seq<string>, observable: seq<string>, before: seq<Listener>, after: seq<Listener>)
    ensures registered == ["sameEvent"]
    ensures observable == ["sameEvent", "beforeSameEvent", "afterSameEvent"]
    ensures before == [Listener(1), Listener(2)] && after == [Listener(3)]
  {
    var registry := new B.EventRegistry();
    var store := new ListenerStore();
    SameEventNames();
    B.BeforeEvent(registry, store, "TestModel", "sameEvent", Listener(1));
    assert registry.EventsFor("TestModel") == ["sameEvent"];
    assert store.ListenersFor("TestModel", "beforeSameEvent") == [Listener(1)];
    B.BeforeEvent(registry, store, "TestModel", "sameEvent", Listener(2));
    assert registry.EventsFor("TestModel") == ["sameEvent"];
    assert store.ListenersFor("TestModel", "beforeSameEvent") == [Listener(1), Listener(2)];
    B.AfterEvent(registry, store, "TestModel", "sameEvent", Listener(3));
    assert registry.EventsFor("TestModel") == ["sameEvent"];
    assert store.ListenersFor("TestModel", "beforeSameEvent") == [Listener(1), Listener(2)];
    var m := B.NewModel(registry, "TestModel", []);
    registered, observable := registry.EventsFor("TestModel"), m.observable;
    before, after := store.ListenersFor("TestModel", "beforeSameEvent"), store.ListenersFor("TestModel", "afterSameEvent");
  }

  lemma CustomEventNames()
    ensures Derived(Before, "customEvent") == "beforeCustomEvent"
    ensures Derived(Before, "CustomEvent") == "beforeCustomEvent"
  {
    UcfirstLiteral("customEvent", "CustomEvent");
    assert "before" + "CustomEvent" == "beforeCustomEvent";
    assert Ucfirst("CustomEvent") == "CustomEvent";
  }

  /**
   * `customEvent` and `CustomEvent` are two registry entries, but their before
   * listeners share one key, so firing either event runs both listeners.
   */
  method CaseVariantsShareListeners() returns (registered: seq<string>, before: seq<Listener>)
    ensures registered == ["customEvent", "CustomEvent"]
    ensures before == [Listener(1), Listener(2)]
  {
    var registry := new B.EventRegistry();
    var store := new ListenerStore();
    B.BeforeEvent(registry, store, "TestModel", "customEvent", Listener(1));
    B.BeforeEvent(registry, store, "TestModel", "CustomEvent", Listener(2));
    CustomEventNames();
    registered := registry.EventsFor("TestModel");
    before := store.ListenersFor("TestModel", "beforeCustomEvent");
  }

  /**
   * The initialiser does not remove duplicates: with `customEvent` and
   * `CustomEvent` registered, the before name appears twice in the list it
   * passes to `addObservableEvents`.
   */
  lemma CaseVariantsDuplicateBeforeName()
    ensures var names := B.TripleNames(["customEvent", "CustomEvent"]);
            names[1] == names[4] == "beforeCustomEvent"
  {
    var events := ["customEvent", "CustomEvent"];
    B.TripleNamesAt(events, 0);
    B.TripleNamesAt(events, 1);
    CustomEventNames();
  }

  /** Registries and listener lists are kept per model class. */
  method SeparateRegistriesPerClass()
    returns (first: seq<string>, second: seq<string>, firstListeners: seq<Listener>, secondListeners: seq<Listener>)
    ensures first == second == ["testEvent"]
    ensures firstListeners == [Listener(1)] && secondListeners == [Listener(2)]
  {
    var registry := new B.EventRegistry();
    var store := new ListenerStore();
    B.BeforeEvent(registry, store, "TestModel", "testEvent", Listener(1));
    B.BeforeEvent(registry, store, "ModelWithCustomEvents", "testEvent", Listener(2));
    first, second := registry.EventsFor("TestModel"), registry.EventsFor("ModelWithCustomEvents");
    var key := Derived(Before, "testEvent");
    firstListeners, secondListeners := store.ListenersFor("TestModel", key), store.ListenersFor("ModelWithCustomEvents", key);
  }
}
