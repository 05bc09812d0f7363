/**
 * The dispatch wrapper both traits install as `fireModelEvent`: fire
 * `before<E>` (which may veto), then `E` itself, then `after<E>` when `E` did
 * not stop, and return the result of `E`.
 */
module Dispatch {
  import opened EventNames
  import opened Host

  /** The outcome of one wrapped dispatch and the host firings it made, in order. */
  datatype Dispatched = Dispatched(result: Outcome, fired: seq<Firing>)

  /** The before phase vetoes: `before<E>` is observable and firing it returned `false`. */
  predicate Vetoed(observable: seq<string>, host: HostFire, event: string, halt: bool)
  {
    Derived(Before, event) in observable && host(Derived(Before, event), halt) == Stop
  }

  /** Specification of one wrapped dispatch of `event` with halt flag `halt`. */
  function Wrapped(observable: seq<string>, host: HostFire, event: string, halt: bool): (d: Dispatched)
    ensures Vetoed(observable, host, event, halt) ==>
              d == Dispatched(Stop, [Firing(Derived(Before, event), halt)])
    ensures !Vetoed(observable, host, event, halt) ==> d.result == host(event, halt)
    ensures d.result == Stop <==> Vetoed(observable, host, event, halt) || host(event, halt) == Stop
    ensures 1 <= |d.fired| <= 3
    ensures Derived(Before, event) !in observable && Derived(After, event) !in observable ==>
              d == Dispatched(host(event, halt), [Firing(event, halt)])
  {
    var beforeEvent := Derived(Before, event);
    var afterEvent := Derived(After, event);
    var pre := if beforeEvent in observable then [Firing(beforeEvent, halt)] else [];
    if beforeEvent in observable && host(beforeEvent, halt) == Stop then
      Dispatched(Stop, pre)
    else
      var result := host(event, halt);
      var post := if result != Stop && afterEvent in observable then [Firing(afterEvent, false)] else [];
      Dispatched(result, pre + [Firing(event, halt)] + post)
  }

  /** The firings of `fired` whose event name is `name`, in order. */
  function Named(fired: seq<Firing>, name: string): (r: seq<Firing>)
    ensures |r| <= |fired|
    ensures forall f :: f in r ==> f in fired && f.name == name
  {
    if fired == [] then []
    else (if fired[0].name == name then [fired[0]] else []) + Named(fired[1..], name)
  }

  lemma {:induction false} NamedAppend(s: seq<Firing>, t: seq<Firing>, name: string)
    ensures Named(s + t, name) == Named(s, name) + Named(t, name)
  {
    if s == [] {
      assert s + t == t;
    } else {
      assert (s + t)[1..] == s[1..] + t;
      NamedAppend(s[1..], t, name);
    }
  }

  lemma NamedSingle(f: Firing, name: string)
    ensures Named([f], name) == if f.name == name then [f] else []
  {
    assert [f][1..] == [];
  }

  /** Splits a dispatch trace into its (at most three) phases. */
  lemma {:induction false} NamedInWrapped(observable: seq<string>, host: HostFire, event: string, halt: bool, name: string)
    ensures var d := Wrapped(observable, host, event, halt);
            var beforeEvent, afterEvent := Derived(Before, event), Derived(After, event);
            Named(d.fired, name) ==
              Named(if beforeEvent in observable then [Firing(beforeEvent, halt)] else [], name)
              + Named(if Vetoed(observable, host, event, halt) then [] else [Firing(event, halt)], name)
              + Named(if !Vetoed(observable, host, event, halt) && host(event, halt) != Stop && afterEvent in observable
                      then [Firing(afterEvent, false)] else [], name)
  {
    var beforeEvent, afterEvent := Derived(Before, event), Derived(After, event);
    var pre := if beforeEvent in observable then [Firing(beforeEvent, halt)] else [];
    var base := if Vetoed(observable, host, event, halt) then [] else [Firing(event, halt)];
    var post := if !Vetoed(observable, host, event, halt) && host(event, halt) != Stop && afterEvent in observable
                then [Firing(afterEvent, false)] else [];
    assert Wrapped(observable, host, event, halt).fired == pre + base + post;
    NamedAppend(pre + base, post, name);
    NamedAppend(pre, base, name);
  }

  /** The before phase fires `before<E>` exactly when it is observable, with the caller's halt flag. */
  lemma BeforePhase(observable: seq<string>, host: HostFire, event: string, halt: bool)
    ensures var beforeEvent := Derived(Before, event);
            Named(Wrapped(observable, host, event, halt).fired, beforeEvent) ==
              if beforeEvent in observable then [Firing(beforeEvent, halt)] else []
  {
    var beforeEvent, afterEvent := Derived(Before, event), Derived(After, event);
    NamedInWrapped(observable, host, event, halt, beforeEvent);
    DerivedNamesDistinct(event);
    NamedSingle(Firing(beforeEvent, halt), beforeEvent);
    NamedSingle(Firing(event, halt), beforeEvent);
    NamedSingle(Firing(afterEvent, false), beforeEvent);
  }

  /**
   * Unless the before phase vetoes, `E` is fired exactly once, with the
   * caller's halt flag; after a veto it is not fired at all.
   */
  lemma BaseFiredOnce(observable: seq<string>, host: HostFire, event: string, halt: bool)
    ensures Named(Wrapped(observable, host, event, halt).fired, event) ==
              if Vetoed(observable, host, event, halt) then [] else [Firing(event, halt)]
  {
    var beforeEvent, afterEvent := Derived(Before, event), Derived(After, event);
    NamedInWrapped(observable, host, event, halt, event);
    DerivedNamesDistinct(event);
    NamedSingle(Firing(beforeEvent, halt), event);
    NamedSingle(Firing(event, halt), event);
    NamedSingle(Firing(afterEvent, false), event);
  }

  /**
   * `after<E>` is fired exactly when there was no veto, `E` did not return
   * `false` and `after<E>` is observable; it is always fired with halt off.
   */
  lemma AfterPhase(observable: seq<string>, host: HostFire, event: string, halt: bool)
    ensures var afterEvent := Derived(After, event);
            Named(Wrapped(observable, host, event, halt).fired, afterEvent) ==
              if !Vetoed(observable, host, event, halt) && host(event, halt) != Stop && afterEvent in observable
              then [Firing(afterEvent, false)] else []
  {
    var beforeEvent, afterEvent := Derived(Before, event), Derived(After, event);
    NamedInWrapped(observable, host, event, halt, afterEvent);
    DerivedNamesDistinct(event);
    NamedSingle(Firing(beforeEvent, halt), afterEvent);
    NamedSingle(Firing(event, halt), afterEvent);
    NamedSingle(Firing(afterEvent, false), afterEvent);
  }

  /** `s` is `t` with some elements left out, the rest in the same order. */
  predicate Subsequence<T(==)>(s: seq<T>, t: seq<T>)
  {
    if s == [] then true
    else if t == [] then false
    else (s[0] == t[0] && Subsequence(s[1..], t[1..])) || Subsequence(s, t[1..])
  }

  /**
   * A dispatch fires nothing but `before<E>`, `E` and `after<E>`, each at most
   * once and in that order.
   */
  lemma TraceOrder(observable: seq<string>, host: HostFire, event: string, halt: bool)
    ensures Subsequence(Wrapped(observable, host, event, halt).fired,
                        [Firing(Derived(Before, event), halt), Firing(event, halt), Firing(Derived(After, event), false)])
  {
    var b, e, a := Firing(Derived(Before, event), halt), Firing(event, halt), Firing(Derived(After, event), false);
    var t := [b, e, a];
    assert t[1..] == [e, a] && t[1..][1..] == [a] && t[1..][1..][1..] == [];
    var fired := Wrapped(observable, host, event, halt).fired;
    if fired == [b] {
      assert Subsequence([b][1..], t[1..]);
    } else if fired == [e] {
      assert Subsequence([e][1..], t[1..][1..]);
    } else if fired == [b, e] {
      assert [b, e][1..] == [e];
      assert Subsequence([e][1..], t[1..][1..]);
    } else if fired == [e, a] {
      assert [e, a][1..] == [a];
      assert Subsequence([a][1..], t[1..][1..][1..]);
    } else {
      assert fired == [b, e, a];
      assert [b, e, a][1..] == [e, a] && [e, a][1..] == [a];
      assert Subsequence([a][1..], t[1..][1..][1..]);
    }
  }

  /**
   * The return value of the after phase is discarded: two hosts that agree on
   * the before and base firings give the same dispatch, whatever `after<E>` returns.
   */
  lemma AfterResultDiscarded(observable: seq<string>, host1: HostFire, host2: HostFire, event: string, halt: bool)
    requires host1(Derived(Before, event), halt) == host2(Derived(Before, event), halt)
    requires host1(event, halt) == host2(event, halt)
    ensures Wrapped(observable, host1, event, halt) == Wrapped(observable, host2, event, halt)
  {
  }

  /**
   * A model instance as the wrapper sees it: its observable event names and
   * the trace of the host firings made on it.
   */
  class Model {
    const cls: ClassId
    var observable: seq<string>
    var trace: seq<Firing>

    constructor (cls: ClassId, observables: seq<string>)
      ensures this.cls == cls && observable == observables && trace == []
    {
      this.cls := cls;
      observable := observables;
      trace := [];
    }

    /** The host's `addObservableEvents`: the names join the observable list. */
    method AddObservableEvents(names: seq<string>)
      modifies this`observable
      ensures observable == old(observable) + names
      ensures forall n :: n in names ==> n in observable
    {
      observable := observable + names;
    }

    /** The host's own `fireModelEvent` (`parent::fireModelEvent`): one firing, recorded in the trace. */
    method FireBase(host: HostFire, name: string, halt: bool) returns (r: Outcome)
      modifies this`trace
      ensures trace == old(trace) + [Firing(name, halt)]
      ensures r == host(name, halt)
    {
      trace := trace + [Firing(name, halt)];
      r := host(name, halt);
    }

    /** The wrapper: before phase with veto, base phase, after phase only when the base did not stop. */
    method FireModelEvent(host: HostFire, event: string, halt: bool := true) returns (r: Outcome)
      modifies this`trace
      ensures r == Wrapped(observable, host, event, halt).result
      ensures trace == old(trace) + Wrapped(observable, host, event, halt).fired
    {
      var beforeEvent := Derived(Before, event);
      if beforeEvent in observable {
        var vetoed := FireBase(host, beforeEvent, halt);
        if vetoed == Stop {
          return Stop;
        }
      }
      r := FireBase(host, event, halt);
      if r != Stop {
        var afterEvent := Derived(After, event);
        if afterEvent in observable {
          var _ := FireBase(host, afterEvent, false);
        }
      }
    }
  }
}
