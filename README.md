# Before and after model events, in Dafny

This project models the core of `plank/before-and-after-model-events`. That PHP package
wraps every lifecycle event `E` of an Eloquent model (`creating`, `saved`, `deleting`, or
any custom name) with two derived events, `before<E>` and `after<E>`. A listener on
`before<E>` can veto the operation by returning `false`. Listeners on `after<E>` run only
when `E` itself was not stopped, and they can never veto.

The core is two traits, and both are modelled:

- `AddBeforeAndAfterEvents` (module `AddBeforeAndAfterEvents`):
  - ten built-in events plus the model's own `$beforeAndAfterEvents` list get a
    `before`/`after` pair each;
  - listeners are attached through twenty explicit static methods (`beforeCreating`, …)
    or through the `__callStatic` router, which matches method names against
    `^(before|after)([A-Z].*)$`.
- `BeforeAndAfterEvents` (module `BeforeAndAfterEvents`):
  - a class-level registry (`$dynamicBeforeAfterEvents`) records every base name given to
    `beforeEvent` / `afterEvent`;
  - each new instance makes the base name, the before name and the after name of every
    registered event observable.

Both traits install the same `fireModelEvent` wrapper. It is modelled once, in module
`Dispatch`:

- `Dispatch.Wrapped` is a specification function. It gives the result of a dispatch and
  the ordered list of host firings it makes.
- `Dispatch.Model.FireModelEvent` is the imperative wrapper. It is proved equal to
  `Wrapped`.
- Lemmas about `Wrapped` state the veto, ordering, halt-flag and return-value properties.

Module `EventNames` holds PHP's `ucfirst` and the derived-name composition. Module
`Scenarios` replays scenarios from the package's feature tests as concrete traces.

The host framework is not visible, so it becomes parameters and small stand-ins (module
`Host` and class `Dispatch.Model`):

- The host's own `fireModelEvent` (`parent::fireModelEvent`) is any function
  `(name, halt) -> Outcome`. Here `Outcome` is `Stop` (PHP `false`) or `Proceed(v)`.
  `Model.FireBase` calls this function and appends `Firing(name, halt)` to the
  instance's `trace`.
  - Within one dispatch the three names are pairwise distinct
    (`EventNames.DerivedNamesDistinct`). Each is fired at most once. So a function of
    `(name, halt)` can stand for any host during a single dispatch.
- `registerModelEvent` appends the callback to a per-class, per-name list
  (`Host.ListenerStore`).
- `addObservableEvents` appends to the instance's `observable` list.
- `is_callable` is the `Callable` case of `Host.Value`.

Where the package's tests state an intent that the code does not carry out, the model
follows the code:

- Duplicates. The comment at `tests/Feature/EdgeCasesAndRegistryTest.php:148` expects a
  registered event to appear in the observable list "not duplicated". Neither trait
  removes duplicates itself; both pass their list unchanged to the host's
  `addObservableEvents`, which does. Two registered names that differ only in the case of
  their first letter therefore put the same before name into that list twice
  (`Scenarios.CaseVariantsDuplicateBeforeName`).
- Case sensitivity. The comment at `tests/Feature/EdgeCasesAndRegistryTest.php:167` says
  that `customEvent` and `CustomEvent` "should be treated as different events". That is
  true of base listeners only:
  - `beforeEvent('customEvent', …)` and `beforeEvent('CustomEvent', …)` both register
    under `beforeCustomEvent`;
  - so firing either event runs both before listeners
    (`EventNames.LowerAndUpperShareDerivedNames`, `Scenarios.CaseVariantsShareListeners`).
- Arity. The router accepts exactly one callable argument and raises the
  invalid-argument error otherwise. The twenty explicit methods (`beforeCreating`, …) are
  ordinary PHP methods with one `callable` parameter:
  - no argument raises an `ArgumentCountError`;
  - a non-callable argument raises a `TypeError`;
  - extra arguments are ignored and the callable is registered
    (`AddBeforeAndAfterEvents.ExtraArgumentsIgnored`).
  So "exactly one callable" holds only for names the router handles.
- Any name takes a listener. The router registers every static call made with exactly one
  callable argument, under the method name, whatever that name is. An Eloquent
  grouped-where call `where(closure)` therefore becomes a listener of an event named
  `where` and never reaches the query builder
  (`AddBeforeAndAfterEvents.OneCallableAlwaysRegisters`).
- Tests against the other trait. Several tests call `beforeEvent` / `afterEvent` on
  `TestModel` and on `ModelWithCustomEvents`. Both classes use `AddBeforeAndAfterEvents`
  (`tests/Models/TestModel.php:11`, `tests/Models/ModelWithCustomEvents.php:10`). Under
  that trait the call is routed to `__callStatic` and rejected with the invalid-argument
  error (`AddBeforeAndAfterEvents.BeforeEventRejected`). Those tests are modelled against
  the `BeforeAndAfterEvents` trait:
  - `Scenarios.SeparateRegistriesPerClass` runs `ModelWithCustomEvents` under
    `BeforeAndAfterEvents`;
  - `Scenarios.NewModelWithCustomEvents` builds the same class under
    `AddBeforeAndAfterEvents`, the trait it declares.

The two traits are independent: `AddBeforeAndAfterEvents` never reads the registry, and
`BeforeAndAfterEvents` has no baseline of built-in events.

## Model

| member | source | states |
|---|---|---|
| `EventNames.Ucfirst` | src/Concerns/AddBeforeAndAfterEvents.php:36-37 | `ucfirst` keeps the length and every character after the first; it upper-cases an ASCII lower-case first letter (code point minus 32) and leaves any other first character alone |
| `EventNames.UcfirstIdempotent` | src/Concerns/AddBeforeAndAfterEvents.php:46 | applying `ucfirst` twice is the same as once |
| `EventNames.Derived` | src/Concerns/AddBeforeAndAfterEvents.php:46-58 | a derived name begins with the phase prefix and is exactly as much longer than the event name as the prefix is long; that the remainder is `ucfirst` of the event is the definition itself |
| `EventNames.DerivedEqual` | src/Concerns/BeforeAndAfterEvents.php:26-27 | two derived names are equal iff they have the same phase and the same `ucfirst` of the event: the composition forgets only the case of the first character |
| `EventNames.DerivedNamesDistinct` | src/Concerns/AddBeforeAndAfterEvents.php:46-58 | `before<E>`, `after<E>` and `E` are pairwise distinct |
| `EventNames.LowerAndUpperShareDerivedNames` | src/Concerns/BeforeAndAfterEvents.php:68 | an event starting with a lower-case letter and its capitalised form are different names with the same before and after names (the composition is not injective) |
| `Host.ListenerStore.RegisterModelEvent` | src/Concerns/AddBeforeAndAfterEvents.php:80 | registering appends the callback to the listeners of that class and name, keeping earlier ones in order and touching no other key |
| `Dispatch.Wrapped` | src/Concerns/AddBeforeAndAfterEvents.php:43-65 | a veto returns `false` after firing only `before<E>`; otherwise the result is what firing `E` returned; the result is `false` iff the before phase vetoed or `E` returned `false`; 1 to 3 firings; with neither derived name observable the dispatch is exactly one firing of `E` |
| `Dispatch.BeforePhase` | src/Concerns/AddBeforeAndAfterEvents.php:45-51 | `before<E>` is fired once, with the caller's halt flag, iff it is observable |
| `Dispatch.BaseFiredOnce` | src/Concerns/AddBeforeAndAfterEvents.php:53-54 | unless vetoed, `E` is fired exactly once with the caller's halt flag; after a veto it is not fired |
| `Dispatch.AfterPhase` | src/Concerns/BeforeAndAfterEvents.php:46-52 | `after<E>` is fired once, with halt off, iff there was no veto, `E` did not return `false` and `after<E>` is observable; otherwise never |
| `Dispatch.TraceOrder` | src/Concerns/BeforeAndAfterEvents.php:33-55 | the firings of one dispatch are a subsequence of `[before<E> (halt), E (halt), after<E> (no halt)]`: nothing else, each at most once, in that order |
| `Dispatch.AfterResultDiscarded` | src/Concerns/AddBeforeAndAfterEvents.php:60-64 | two hosts that agree on the before and base firings give the same result and firings, whatever the after firing returns |
| `Dispatch.Model.AddObservableEvents` | src/Concerns/AddBeforeAndAfterEvents.php:40 | the given names are appended to the observable list |
| `Dispatch.Model.FireBase` | src/Concerns/AddBeforeAndAfterEvents.php:48 | one host firing: appended to the trace with its halt flag; its result is the host's |
| `Dispatch.Model.FireModelEvent` | src/Concerns/AddBeforeAndAfterEvents.php:43-65 | the wrapper returns `Wrapped(...).result` and extends the trace by exactly `Wrapped(...).fired` |
| `AddBeforeAndAfterEvents.DefaultEvents` | src/Concerns/AddBeforeAndAfterEvents.php:14-25 | the baseline is ten distinct event names, each starting with a lower-case letter |
| `AddBeforeAndAfterEvents.PairNames` | src/Concerns/AddBeforeAndAfterEvents.php:33-38 | the generated list has two names per event |
| `AddBeforeAndAfterEvents.PairNamesAt` | src/Concerns/AddBeforeAndAfterEvents.php:35-38 | positions `2i` and `2i+1` hold `before` and `after` of the `i`-th event |
| `AddBeforeAndAfterEvents.PairNamesMembership` | src/Concerns/AddBeforeAndAfterEvents.php:35-38 | a name is generated iff it is the before or after name of one of the events |
| `AddBeforeAndAfterEvents.PairNamesAppend` | src/Concerns/AddBeforeAndAfterEvents.php:31 | the pairs of a concatenation are the pairs of each part, in order |
| `AddBeforeAndAfterEvents.OnlyDerivedNamesAdded` | src/Concerns/AddBeforeAndAfterEvents.php:34-38 | every generated name starts with `before` or `after`: base names are not added |
| `AddBeforeAndAfterEvents.BuildPairNames` | src/Concerns/AddBeforeAndAfterEvents.php:34-38 | the foreach loop builds exactly `PairNames(events)` |
| `AddBeforeAndAfterEvents.DeclaredOrEmpty` | src/Concerns/AddBeforeAndAfterEvents.php:28 | a model without `$beforeAndAfterEvents` contributes no custom events; one with it contributes exactly its list |
| `AddBeforeAndAfterEvents.InitialiserLayout` | src/Concerns/AddBeforeAndAfterEvents.php:14-31 | the initialiser's list has `2·(10+\|custom\|)` names, the 20 names of the defaults first, then those of the custom list |
| `AddBeforeAndAfterEvents.InitializeAddBeforeAndAfterEvents` | src/Concerns/AddBeforeAndAfterEvents.php:12-41 | the observable list is extended by the pairs of the defaults followed by `$beforeAndAfterEvents ?? []`; nothing is fired |
| `AddBeforeAndAfterEvents.NewModel` | src/Concerns/AddBeforeAndAfterEvents.php:12-41 | a new instance has an empty trace and observes its initial names plus those pairs |
| `AddBeforeAndAfterEvents.MatchEventMethod` | src/Concerns/AddBeforeAndAfterEvents.php:70-73 | a match gives a phase and a name starting with a capital whose concatenation is the method name (`$fullEventName` equals the method) |
| `AddBeforeAndAfterEvents.MatchEventMethodComplete` | src/Concerns/AddBeforeAndAfterEvents.php:70 | every `before<X>` / `after<X>` with capital `X` matches and yields exactly that phase and `X` |
| `AddBeforeAndAfterEvents.NoMatchMeansNoEventMethod` | src/Concerns/AddBeforeAndAfterEvents.php:70 | a non-matching name has no decomposition into a prefix and a capitalised rest |
| `AddBeforeAndAfterEvents.InvalidArgumentMessage` | src/Concerns/AddBeforeAndAfterEvents.php:77 | the error message is `Method `, then the called name verbatim, then ` expects a single callable parameter.` |
| `AddBeforeAndAfterEvents.ResolveStaticCall` | src/Concerns/AddBeforeAndAfterEvents.php:67-95 | registers iff there is exactly one callable argument, always under the method name itself; raises `Method {method} expects a single callable parameter.` iff the name matches and the arguments are not one callable; forwards the call unchanged iff neither |
| `AddBeforeAndAfterEvents.MagicRegistrationReachesDispatch` | src/Concerns/AddBeforeAndAfterEvents.php:70-80 | `before<X>(cb)` registers under the same key the wrapper fires for every event `E` with `ucfirst(E) == X` |
| `AddBeforeAndAfterEvents.BeforeEventRejected` | src/Concerns/AddBeforeAndAfterEvents.php:70-78 | under this trait `beforeEvent(name, cb)` raises the invalid-argument error |
| `AddBeforeAndAfterEvents.OneCallableAlwaysRegisters` | src/Concerns/AddBeforeAndAfterEvents.php:85-91 | a non-event name called with one callable, such as `where(closure)`, is registered as a listener and not forwarded |
| `AddBeforeAndAfterEvents.CallStatic` | src/Concerns/AddBeforeAndAfterEvents.php:67-95 | the router's result is `ResolveStaticCall`'s; a registration appends the callback under the method name; an error or a forward leaves the listener store unchanged |
| `AddBeforeAndAfterEvents.StandardEventsAreDefaults` | src/Concerns/AddBeforeAndAfterEvents.php:14-25 | each event with explicit methods is one of the ten defaults |
| `AddBeforeAndAfterEvents.UcfirstOfStandardEvent` | src/Concerns/AddBeforeAndAfterEvents.php:98-196 | the capitalised names in the explicit methods are `ucfirst` of the default event names |
| `AddBeforeAndAfterEvents.ExplicitKey` | src/Concerns/AddBeforeAndAfterEvents.php:98-196 | the literal key of each explicit method is the derived name of its event and phase |
| `AddBeforeAndAfterEvents.ExplicitKeyIsDerived` | src/Concerns/AddBeforeAndAfterEvents.php:98-196 | each explicit method's key is `Derived(phase, event)`, the name the wrapper fires, and the router would register a callback under the same key |
| `AddBeforeAndAfterEvents.ResolveExplicitCall` | src/Concerns/AddBeforeAndAfterEvents.php:98-101 | an explicit method raises `ArgumentCountError` iff called with no argument and `TypeError` iff its first argument is not callable; otherwise it registers the first argument under its key |
| `AddBeforeAndAfterEvents.ExtraArgumentsIgnored` | src/Concerns/AddBeforeAndAfterEvents.php:76-77 | an explicit method called with a callable and extra arguments registers the callable, while the router rejects the same arguments for any `before<X>`/`after<X>` name it handles |
| `AddBeforeAndAfterEvents.RegisterExplicit` | src/Concerns/AddBeforeAndAfterEvents.php:98-101 | the outcome is the one `ResolveExplicitCall` gives; a registration appends the callback under the literal key; an error leaves the store unchanged |
| `BeforeAndAfterEvents.AppendNew` | src/Concerns/BeforeAndAfterEvents.php:96-98 | the name is present afterwards; the old list is a prefix; membership is the old list plus the name; the list is unchanged iff the name was already there; no duplicates stay no duplicates |
| `BeforeAndAfterEvents.AppendNewIdempotent` | src/Concerns/BeforeAndAfterEvents.php:90-99 | appending the same name twice equals appending it once |
| `BeforeAndAfterEvents.EventRegistry.constructor` | src/Concerns/BeforeAndAfterEvents.php:15 | the registry starts empty, with no class listing any name |
| `BeforeAndAfterEvents.EventRegistry.EventsFor` | src/Concerns/BeforeAndAfterEvents.php:20 | a class's registered events are its registry entry, or none if it never registered one |
| `BeforeAndAfterEvents.EventRegistry.RegisterDynamicEvent` | src/Concerns/BeforeAndAfterEvents.php:90-99 | the class's list becomes `AppendNew(old list, e)`; `e` is listed; a repeat call leaves the whole registry unchanged; other classes are untouched; no list holds a name twice |
| `BeforeAndAfterEvents.TripleNames` | src/Concerns/BeforeAndAfterEvents.php:24-28 | the generated list has three names per registered event |
| `BeforeAndAfterEvents.TripleNamesAt` | src/Concerns/BeforeAndAfterEvents.php:25-27 | positions `3i`, `3i+1`, `3i+2` hold the `i`-th event, its before name and its after name |
| `BeforeAndAfterEvents.TripleNamesMembership` | src/Concerns/BeforeAndAfterEvents.php:24-28 | a name is generated iff it is a registered event or the before or after name of one |
| `BeforeAndAfterEvents.TripleNamesAppendNew` | src/Concerns/BeforeAndAfterEvents.php:96-97 | registering a new event extends the generated list by its triple; a known one changes nothing |
| `BeforeAndAfterEvents.BuildTripleNames` | src/Concerns/BeforeAndAfterEvents.php:23-28 | the foreach loop builds exactly `TripleNames(events)` |
| `BeforeAndAfterEvents.InitializeBeforeAndAfterEvents` | src/Concerns/BeforeAndAfterEvents.php:17-31 | the observable list is extended by the triples of the class's registry entry; a never-registered class adds nothing; nothing is fired |
| `BeforeAndAfterEvents.NewModel` | src/Concerns/BeforeAndAfterEvents.php:17-31 | every event registered for the class before construction is observable on the new instance, with its before and after names |
| `BeforeAndAfterEvents.RegisterPhaseEvent` | src/Concerns/BeforeAndAfterEvents.php:63-85 | the base name is recorded idempotently for the class and the callback is appended under the derived name |
| `BeforeAndAfterEvents.BeforeEvent` | src/Concerns/BeforeAndAfterEvents.php:63-70 | records the event for the class, then appends the callback under `before<ucfirst(E)>` |
| `BeforeAndAfterEvents.AfterEvent` | src/Concerns/BeforeAndAfterEvents.php:78-85 | records the event for the class, then appends the callback under `after<ucfirst(E)>` |
| `BeforeAndAfterEvents.RegisterThenConstruct` | src/Concerns/BeforeAndAfterEvents.php:17-31 | after `beforeEvent`/`afterEvent(e, cb)`, an instance built afterwards observes `e` and the derived name `cb` was appended under |
| `Scenarios.NewModelWithCustomEvents` | tests/Models/ModelWithCustomEvents.php:17 | a model declaring custom events observes `beforePublishing` and `afterPublishing` |
| `Scenarios.CustomEventOrder` | tests/Feature/CustomEventsTest.php:44-72 | firing `publishing` fires `beforePublishing`, `publishing`, then `afterPublishing` with halt off |
| `Scenarios.VetoedCustomEvent` | tests/Feature/CustomEventsTest.php:74-97 | a `false` from `beforePublishing` returns `false` and fires nothing else |
| `Scenarios.InvalidMagicCall` | tests/Feature/CustomEventsTest.php:180-183 | `beforeInvalidEvent('not-callable')` raises the invalid-argument error; `nonExistentMethod()` is forwarded |
| `Scenarios.RegisterAroundCreating` | tests/Feature/EdgeCasesAndRegistryTest.php:204-216 | registering before and after `creating` lists `creating` once and one listener under each derived key |
| `Scenarios.BaseStopSkipsAfter` | tests/Feature/EdgeCasesAndRegistryTest.php:201-227 | when `creating` returns `false` the result is `false` and `afterCreating` is not fired |
| `Scenarios.PersistsAcrossInstances` | tests/Feature/EdgeCasesAndRegistryTest.php:229-245 | an event registered before two instances are built is wrapped on both |
| `Scenarios.UnregisteredEventPassesThrough` | src/Concerns/BeforeAndAfterEvents.php:33-55 | with nothing registered, a dispatch fires only the event itself and returns its result |
| `Scenarios.RepeatedRegistration` | tests/Feature/EdgeCasesAndRegistryTest.php:123-152 | two `beforeEvent` calls and one `afterEvent` call for one name keep one registry entry, one observable triple, and all three listeners in order |
| `Scenarios.CaseVariantsShareListeners` | tests/Feature/EdgeCasesAndRegistryTest.php:154-173 | `customEvent` and `CustomEvent` are two registry entries whose before listeners share the key `beforeCustomEvent` |
| `Scenarios.CaseVariantsDuplicateBeforeName` | src/Concerns/BeforeAndAfterEvents.php:24-30 | with `customEvent` and `CustomEvent` registered, the initialiser's list holds `beforeCustomEvent` at two positions |
| `Scenarios.SeparateRegistriesPerClass` | tests/Feature/NewBeforeAndAfterEventsTest.php:169-191 | registries and listener lists are kept per model class |

## Left out

- The host's own `fireModelEvent` is a parameter of the model:
  - which listeners it runs, and how the dispatcher halts inside one firing, are not modelled;
  - so the claim that an after listener returning `false` does not stop other after
    listeners is not modelled either.
- Listener side effects are not modelled:
  - a listener that changes the observable list or the model's attributes during a dispatch;
  - exceptions thrown by listeners. Nothing in the core catches them; they pass through
    to the caller.
- The host's `getObservableEvents` is the instance's own list. The host's built-in event
  names never begin with `before` or `after`, so the wrapper's membership tests do not
  depend on them.
- `addObservableEvents` is a plain append. The host's `array_unique` removal of
  duplicates is not shown, and the core only tests membership.
- PHP's loose `in_array` comparison, which treats numeric strings such as `'1e1'` and
  `'10'` as equal, is modelled as string equality.
- `ucfirst` is ASCII-only.
- In the `__callStatic` pattern, `.` is modelled as any character and `$` as the end of
  the name. PCRE's `.` stops at a newline, and its `$` also matches before a final
  newline. Method names containing a newline, as in `TestModel::{"beforeFoo\n"}($cb)`,
  are therefore handled differently:
  - for `"beforeFoo\n"` with one callable, PHP registers under `beforeFoo` and the model
    under `beforeFoo\n`;
  - for `"beforeFoo\nBar"` with two arguments, PHP forwards the call and the model raises
    the invalid-argument error.
- `AddBeforeAndAfterEvents.ResolveStaticCall`, `AddBeforeAndAfterEvents.CallStatic` and
  `AddBeforeAndAfterEvents.ResolveExplicitCall` take positional arguments only; PHP 8
  named arguments are not modelled. `__callStatic` receives named arguments under string
  keys, so `$parameters[0]` does not exist:
  - `ModelWithCustomEvents::beforePublishing(callback: $cb)` raises an "Undefined array
    key 0" warning, then the invalid-argument exception, and registers nothing;
  - `ModelWithCustomEvents::publishing(callback: $cb)` is not registered either;
  - the model, given the single callable positionally, registers in both cases.
  The explicit methods do accept `beforeCreating(callback: $cb)`, a further difference
  between them and the router.
- `parent::__callStatic` (the fallback) is the `Forward` result. What the host then does
  with the call is not modelled.
- The twenty literal keys of the explicit methods are written as the
  `before` / `after` prefix followed by a table of the ten capitalised event names, not
  as twenty separate string literals.
- A PHP static property declared in a trait exists once per class that uses the trait,
  and subclasses share it. The registry here is one map keyed by class identity, and
  subclass sharing is not modelled.
- Any non-`false` host result is represented as `Proceed(v)` with an integer payload.
- `BeforeAndAfterEvents.BeforeEvent` and `BeforeAndAfterEvents.AfterEvent` take a
  `string` and a `Listener`. PHP's `string $event, callable $callback` parameter types
  raise a `TypeError` or `ArgumentCountError` before the body runs, and extra arguments
  are ignored. The model covers only well-typed calls, the only ones that change any
  state.
- Persistence (`save`, `delete`, `restore`, soft deletes), the test configuration and
  database setup, the `ModelSaved` event class, and the fixtures' `boot()` listener setup
  are host or test wiring, not this core.
