/**
 * The `AddBeforeAndAfterEvents` trait: a fixed baseline of ten lifecycle
 * events plus the model's own `$beforeAndAfterEvents` list get a
 * `before`/`after` pair each; listeners are attached through twenty explicit
 * static methods or through the magic static-call router.
 */
module AddBeforeAndAfterEvents {
  import opened EventNames
  import opened Host
  import opened Dispatch

  /**
   * The ten lifecycle events that always get before/after names, in this order:
   * ten distinct names, each starting with an ASCII lower-case letter.
   */
  function DefaultEvents(): (events: seq<string>)
    ensures |events| == 10 && NoDup(events)
    ensures forall i :: 0 <= i < |events| ==> |events[i]| > 0 && IsAsciiLower(events[i][0])
  {
    ["creating", "created", "saving", "saved", "updating",
     "updated", "deleting", "deleted", "restoring", "restored"]
  }

  /** The names the initialiser adds: `before<E>, after<E>` for each event `E`, in order. */
  function PairNames(events: seq<string>): (names: seq<string>)
    ensures |names| == 2 * |events|
  {
    if events == [] then []
    else
      var last := events[|events| - 1];
      PairNames(events[..|events| - 1]) + [Derived(Before, last), Derived(After, last)]
  }

  /** The names of the `i`-th event sit at positions 2 * i onwards. */
  lemma {:induction false} PairNamesAt(events: seq<string>, i: nat)
    requires i < |events|
    ensures var names := PairNames(events);
            names[2 * i] == Derived(Before, events[i])
            && names[2 * i + 1] == Derived(After, events[i])
  {
    var init, last := events[..|events| - 1], events[|events| - 1];
    var front, group := PairNames(init), [Derived(Before, last), Derived(After, last)];
    assert PairNames(events) == front + group;
    if i < |init| {
      PairNamesAt(init, i);
      assert events[i] == init[i];
      assert 2 * i + 1 < |front|;
    } else {
      assert i == |init| && 2 * i == |front|;
    }
  }

  /** One of the two names the initialiser adds for event `e`. */
  predicate InPair(name: string, e: string)
  {
    name == Derived(Before, e) || name == Derived(After, e)
  }

  /** A name is added exactly when it is the before or after name of one of the events. */
  lemma {:induction false} PairNamesMembership(events: seq<string>, name: string)
    ensures name in PairNames(events) <==> exists e :: e in events && InPair(name, e)
  {
    if events != [] {
      var init, last := events[..|events| - 1], events[|events| - 1];
      var group := [Derived(Before, last), Derived(After, last)];
      assert events == init + [last];
      assert PairNames(events) == PairNames(init) + group;
      PairNamesMembership(init, name);
      if name in PairNames(events) {
        if name in PairNames(init) {
          var e :| e in init && InPair(name, e);
          assert e in events;
        } else {
          assert name in group;
          assert InPair(name, last);
        }
      }
      if exists e :: e in events && InPair(name, e) {
        var e :| e in events && InPair(name, e);
        if e == last {
          assert name in group;
        } else {
          assert e in init;
        }
      }
    }
  }

  /** Pairs for a concatenation are the pairs of the first list followed by those of the second. */
  lemma {:induction false} PairNamesAppend(xs: seq<string>, ys: seq<string>)
    ensures PairNames(xs + ys) == PairNames(xs) + PairNames(ys)
  {
    if ys == [] {
      assert xs + ys == xs;
    } else {
      var init := ys[..|ys| - 1];
      assert (xs + ys)[..|xs + ys| - 1] == xs + init;
      PairNamesAppend(xs, init);
    }
  }

  predicate StartsWith(s: string, prefix: string)
  {
    |prefix| <= |s| && s[..|prefix|] == prefix
  }

  /** Base names are never added: every added name starts with `before` or `after`. */
  lemma OnlyDerivedNamesAdded(events: seq<string>, name: string)
    requires name in PairNames(events)
    ensures StartsWith(name, "before") || StartsWith(name, "after")
  {
    PairNamesMembership(events, name);
    var e :| e in events && InPair(name, e);
  }

  /** The foreach loop of the initialiser that builds the list of names to add. */
  method BuildPairNames(events: seq<string>) returns (names: seq<string>)
    ensures names == PairNames(events)
  {
    names := [];
    var i := 0;
    while i < |events|
      invariant 0 <= i <= |events|
      invariant names == PairNames(events[..i])
    {
      assert events[..i + 1][..i] == events[..i];
      names := names + [Derived(Before, events[i]), Derived(After, events[i])];
      i := i + 1;
    }
    assert events[..|events|] == events;
  }

  /** `$this->beforeAndAfterEvents ?? []`. */
  function DeclaredOrEmpty(declared: Option<seq<string>>): (events: seq<string>)
    ensures declared.Some? ==> events == declared.value
    ensures declared.None? ==> events == []
  {
    match declared
    case Some(events) => events
    case None => []
  }

  /**
   * The initialiser adds `2 * (10 + |custom|)` names: the pairs of the ten
   * defaults first, then those of the model's own list.
   */
  lemma InitialiserLayout(declared: Option<seq<string>>)
    ensures var names := PairNames(DefaultEvents() + DeclaredOrEmpty(declared));
            && |names| == 2 * (10 + |DeclaredOrEmpty(declared)|)
            && names[..20] == PairNames(DefaultEvents())
            && names[20..] == PairNames(DeclaredOrEmpty(declared))
  {
    PairNamesAppend(DefaultEvents(), DeclaredOrEmpty(declared));
  }

  /** `initializeAddBeforeAndAfterEvents`: build the pairs, then add them to the observable list. */
  method InitializeAddBeforeAndAfterEvents(m: Model, declared: Option<seq<string>>)
    modifies m
    ensures m.observable == old(m.observable) + PairNames(DefaultEvents() + DeclaredOrEmpty(declared))
    ensures m.trace == old(m.trace)
  {
    var allEvents := DefaultEvents() + DeclaredOrEmpty(declared);
    var beforeAndAfterEvents := BuildPairNames(allEvents);
    m.AddObservableEvents(beforeAndAfterEvents);
  }

  /** A new instance of a model class using the trait: host construction, then the initialiser. */
  method NewModel(cls: ClassId, observables: seq<string>, declared: Option<seq<string>>) returns (m: Model)
    ensures fresh(m) && m.cls == cls && m.trace == []
    ensures m.observable == observables + PairNames(DefaultEvents() + DeclaredOrEmpty(declared))
  {
    m := new Model(cls, observables);
    InitializeAddBeforeAndAfterEvents(m, declared);
  }

  // ---------------------------------------------------------------------------
  // The magic static-call router `__callStatic`.

  /** The groups of a match of `^(before|after)([A-Z].*)$`. */
  datatype MethodMatch = NoMatch | EventMethod(phase: Phase, eventName: string)

  predicate MatchesPhase(methodName: string, p: Phase)
  {
    |Prefix(p)| < |methodName| && methodName[..|Prefix(p)|] == Prefix(p) && IsAsciiUpper(methodName[|Prefix(p)|])
  }

  function MatchEventMethod(methodName: string): (m: MethodMatch)
    ensures m.EventMethod? ==>
              Prefix(m.phase) + m.eventName == methodName && |m.eventName| > 0 && IsAsciiUpper(m.eventName[0])
  {
    if MatchesPhase(methodName, Before) then EventMethod(Before, methodName[|Prefix(Before)|..])
    else if MatchesPhase(methodName, After) then EventMethod(After, methodName[|Prefix(After)|..])
    else NoMatch
  }

  /**
   * The pattern matches exactly the names `before<X>` and `after<X>` with `X`
   * starting with an ASCII capital, and recovers the phase and `X`.
   */
  lemma {:induction false} MatchEventMethodComplete(p: Phase, rest: string)
    requires |rest| > 0 && IsAsciiUpper(rest[0])
    ensures MatchEventMethod(Prefix(p) + rest) == EventMethod(p, rest)
  {
    var methodName := Prefix(p) + rest;
    assert methodName[..|Prefix(p)|] == Prefix(p);
    assert methodName[|Prefix(p)|] == rest[0];
    assert methodName[|Prefix(p)|..] == rest;
    if p == After {
      assert methodName[0] == 'a';
      assert !MatchesPhase(methodName, Before);
    }
  }

  /** A name that does not match has no decomposition `before<X>` / `after<X>` with capital `X`. */
  lemma NoMatchMeansNoEventMethod(methodName: string, p: Phase, rest: string)
    requires MatchEventMethod(methodName) == NoMatch
    requires methodName == Prefix(p) + rest
    ensures rest == [] || !IsAsciiUpper(rest[0])
  {
    if rest != [] && IsAsciiUpper(rest[0]) {
      MatchEventMethodComplete(p, rest);
    }
  }

  /** What `__callStatic($method, $parameters)` does. */
  datatype StaticCall =
    | Register(key: string, callback: Listener)
    | InvalidArgument(message: string)
    | Forward(methodName: string, parameters: seq<Value>)

  predicate SingleCallable(parameters: seq<Value>)
  {
    |parameters| == 1 && parameters[0].Callable?
  }

  /** The exception message names the method that was called, verbatim. */
  function InvalidArgumentMessage(methodName: string): (message: string)
    ensures |message| == |"Method "| + |methodName| + |" expects a single callable parameter."|
    ensures message[..7] == "Method " && message[7..7 + |methodName|] == methodName
    ensures message[7 + |methodName|..] == " expects a single callable parameter."
  {
    "Method " + methodName + " expects a single callable parameter."
  }

  function ResolveStaticCall(methodName: string, parameters: seq<Value>): (r: StaticCall)
    ensures r.Register? <==> SingleCallable(parameters)
    ensures r.Register? ==> r.key == methodName && r.callback == parameters[0].callback
    ensures r.InvalidArgument? <==> MatchEventMethod(methodName).EventMethod? && !SingleCallable(parameters)
    ensures r.InvalidArgument? ==> r.message == InvalidArgumentMessage(methodName)
    ensures r.Forward? <==> MatchEventMethod(methodName) == NoMatch && !SingleCallable(parameters)
    ensures r.Forward? ==> r.methodName == methodName && r.parameters == parameters
  {
    match MatchEventMethod(methodName)
    case EventMethod(phase, eventName) =>
      if |parameters| != 1 || !parameters[0].Callable? then InvalidArgument(InvalidArgumentMessage(methodName))
      else Register(Prefix(phase) + eventName, parameters[0].callback)
    case NoMatch =>
      if |parameters| == 1 && parameters[0].Callable? then Register(methodName, parameters[0].callback)
      else Forward(methodName, parameters)
  }

  /**
   * A listener attached through `before<X>(cb)` is found by the dispatcher
   * when it fires any event `E` with `ucfirst(E) == X`.
   */
  lemma MagicRegistrationReachesDispatch(p: Phase, event: string, callback: Listener)
    requires |event| > 0 && IsAsciiUpper(Ucfirst(event)[0])
    ensures ResolveStaticCall(Derived(p, event), [Callable(callback)]) == Register(Derived(p, event), callback)
    ensures MatchEventMethod(Derived(p, event)) == EventMethod(p, Ucfirst(event))
  {
    MatchEventMethodComplete(p, Ucfirst(event));
  }

  /**
   * Under this trait the `beforeEvent(name, cb)` form of the other trait is
   * routed to `__callStatic` and rejected: `beforeEvent` matches the pattern
   * and has two arguments.
   */
  lemma BeforeEventRejected(name: Value, callback: Listener)
    ensures ResolveStaticCall("beforeEvent", [name, Callable(callback)])
            == InvalidArgument(InvalidArgumentMessage("beforeEvent"))
  {
    MatchEventMethodComplete(Before, "Event");
    assert Prefix(Before) + "Event" == "beforeEvent";
  }

  /**
   * Any static call the router receives with exactly one callable argument is
   * taken as a listener registration under the method name, whatever that
   * name is: a query-builder call such as `where(closure)` is registered as a
   * listener of an event named `where` instead of reaching the parent.
   */
  lemma OneCallableAlwaysRegisters(callback: Listener)
    ensures ResolveStaticCall("where", [Callable(callback)]) == Register("where", callback)
    ensures !ResolveStaticCall("where", [Callable(callback)]).Forward?
  {
  }

  /** `__callStatic`: register, raise the invalid-argument error, or forward to the parent. */
  method CallStatic(store: ListenerStore, cls: ClassId, methodName: string, parameters: seq<Value>)
    returns (r: StaticCall)
    modifies store
    ensures r == ResolveStaticCall(methodName, parameters)
    ensures r.Register? ==>
              store.listeners == old(store.listeners)[ListenerKey(cls, methodName) :=
                                   old(store.ListenersFor(cls, methodName)) + [r.callback]]
    ensures !r.Register? ==> store.listeners == old(store.listeners)
  {
    var m := MatchEventMethod(methodName);
    if m.EventMethod? {
      var fullEventName := Prefix(m.phase) + m.eventName;
      if |parameters| != 1 || !parameters[0].Callable? {
        return InvalidArgument(InvalidArgumentMessage(methodName));
      }
      store.RegisterModelEvent(cls, fullEventName, parameters[0].callback);
      return Register(fullEventName, parameters[0].callback);
    }
    if |parameters| == 1 && parameters[0].Callable? {
      store.RegisterModelEvent(cls, methodName, parameters[0].callback);
      return Register(methodName, parameters[0].callback);
    }
    r := Forward(methodName, parameters);
  }

  // ---------------------------------------------------------------------------
  // The twenty explicit static methods `beforeCreating` ... `afterRestored`.

  datatype StandardEvent =
    Creating | Created | Saving | Saved | Updating | Updated | Deleting | Deleted | Restoring | Restored

  function EventName(e: StandardEvent): string
  {
    match e
    case Creating => "creating"
    case Created => "created"
    case Saving => "saving"
    case Saved => "saved"
    case Updating => "updating"
    case Updated => "updated"
    case Deleting => "deleting"
    case Deleted => "deleted"
    case Restoring => "restoring"
    case Restored => "restored"
  }

  /** One of the explicit methods: `before<Event>` or `after<Event>` for a standard event. */
  datatype ExplicitMethod = ExplicitMethod(phase: Phase, event: StandardEvent)

  /**
   * The key each explicit method registers its callback under: the literal
   * `'before'` or `'after'` followed by the capitalised event name.
   */
  function ExplicitKey(m: ExplicitMethod): (key: string)
    ensures key == Derived(m.phase, EventName(m.event))
  {
    UcfirstOfStandardEvent(m.event);
    Prefix(m.phase) + CapitalizedName(m.event)
  }

  /** The standard events are exactly the ten defaults of the initialiser. */
  lemma StandardEventsAreDefaults(e: StandardEvent)
    ensures EventName(e) in DefaultEvents()
  {
  }

  /** `ucfirst` of each standard event name. */
  function CapitalizedName(e: StandardEvent): string
  {
    match e
    case Creating => "Creating"
    case Created => "Created"
    case Saving => "Saving"
    case Saved => "Saved"
    case Updating => "Updating"
    case Updated => "Updated"
    case Deleting => "Deleting"
    case Deleted => "Deleted"
    case Restoring => "Restoring"
    case Restored => "Restored"
  }

  lemma UcfirstOfStandardEvent(e: StandardEvent)
    ensures Ucfirst(EventName(e)) == CapitalizedName(e)
  {
    var name := EventName(e);
    assert Ucfirst(name) == [ToUpper(name[0])] + name[1..];
  }

  /**
   * Each explicit method registers under the same key the dispatcher fires for
   * its event, and the same key the magic router would use for that method name.
   */
  lemma ExplicitKeyIsDerived(m: ExplicitMethod, callback: Listener)
    ensures ExplicitKey(m) == Derived(m.phase, EventName(m.event))
    ensures ResolveStaticCall(ExplicitKey(m), [Callable(callback)]) == Register(ExplicitKey(m), callback)
  {
    UcfirstOfStandardEvent(m.event);
  }

  /**
   * What calling an explicit method does. Its `callable $callback` parameter is
   * checked by PHP before the body runs: no argument raises an
   * `ArgumentCountError`, a first argument that is not callable a `TypeError`,
   * and arguments beyond the first are ignored.
   */
  datatype ExplicitCall =
    | Registered(key: string, callback: Listener)
    | TypeError
    | ArgumentCountError

  function ResolveExplicitCall(m: ExplicitMethod, parameters: seq<Value>): (r: ExplicitCall)
    ensures r.ArgumentCountError? <==> parameters == []
    ensures r.TypeError? <==> parameters != [] && !parameters[0].Callable?
    ensures r.Registered? <==> parameters != [] && parameters[0].Callable?
    ensures r.Registered? ==> r.key == Derived(m.phase, EventName(m.event)) && r.callback == parameters[0].callback
  {
    if parameters == [] then ArgumentCountError
    else if !parameters[0].Callable? then TypeError
    else Registered(ExplicitKey(m), parameters[0].callback)
  }

  /**
   * The explicit methods and the router disagree on arity: an explicit method
   * called with a callable and further arguments registers the callable, while
   * the same call to a router-handled name (`beforePublishing`, say) raises the
   * invalid-argument error.
   */
  lemma {:induction false} ExtraArgumentsIgnored(m: ExplicitMethod, callback: Listener, extra: seq<Value>,
                                                 p: Phase, rest: string)
    requires extra != [] && rest != [] && IsAsciiUpper(rest[0])
    ensures ResolveExplicitCall(m, [Callable(callback)] + extra) == ResolveExplicitCall(m, [Callable(callback)])
    ensures ResolveExplicitCall(m, [Callable(callback)] + extra) == Registered(ExplicitKey(m), callback)
    ensures ResolveStaticCall(Prefix(p) + rest, [Callable(callback)] + extra)
            == InvalidArgument(InvalidArgumentMessage(Prefix(p) + rest))
  {
    MatchEventMethodComplete(p, rest);
    assert ([Callable(callback)] + extra)[0] == Callable(callback);
  }

  /** One of the explicit methods, e.g. `beforeCreating(callable $callback)`. */
  method RegisterExplicit(store: ListenerStore, cls: ClassId, m: ExplicitMethod, parameters: seq<Value>)
    returns (r: ExplicitCall)
    modifies store
    ensures r == ResolveExplicitCall(m, parameters)
    ensures r.Registered? ==>
              store.listeners == old(store.listeners)[ListenerKey(cls, r.key) :=
                                   old(store.ListenersFor(cls, r.key)) + [r.callback]]
    ensures !r.Registered? ==> store.listeners == old(store.listeners)
  {
    if parameters == [] {
      return ArgumentCountError;
    }
    if !parameters[0].Callable? {
      return TypeError;
    }
    store.RegisterModelEvent(cls, ExplicitKey(m), parameters[0].callback);
    r := Registered(ExplicitKey(m), parameters[0].callback);
  }
}
