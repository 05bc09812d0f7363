/**
 * Event names and the `before<Name>` / `after<Name>` names derived from them.
 * Event names are case-sensitive strings; the only transformation ever applied
 * is PHP's `ucfirst` on the first character when a derived name is composed.
 */
module EventNames {

  predicate IsAsciiLower(c: char) { 'a' <= c <= 'z' }

  predicate IsAsciiUpper(c: char) { 'A' <= c <= 'Z' }

  /** ASCII upper-casing of one character; every other character is left alone. */
  function ToUpper(c: char): char
  {
    if IsAsciiLower(c) then (c as int - 32) as char else c
  }

  /**
   * PHP's `ucfirst`: the first character is upper-cased when it is an ASCII
   * lower-case letter; nothing else changes.
   */
  function Ucfirst(s: string): (r: string)
    ensures |r| == |s|
    ensures forall i :: 0 < i < |s| ==> r[i] == s[i]
    ensures |s| > 0 ==> !IsAsciiLower(r[0])
    ensures |s| > 0 && IsAsciiLower(s[0]) ==> IsAsciiUpper(r[0]) && r[0] as int == s[0] as int - 32
    ensures |s| == 0 || !IsAsciiLower(s[0]) ==> r == s
  {
    if s == [] then [] else [ToUpper(s[0])] + s[1..]
  }

  /** Upper-casing the first character twice is the same as doing it once. */
  lemma UcfirstIdempotent(s: string)
    ensures Ucfirst(Ucfirst(s)) == Ucfirst(s)
  {
  }

  /** The two phases that wrap a base event. */
  datatype Phase = Before | After

  function Prefix(p: Phase): string
  {
    match p
    case Before => "before"
    case After => "after"
  }

  /** `'before'.ucfirst(event)` or `'after'.ucfirst(event)`. */
  function Derived(p: Phase, event: string): (name: string)
    ensures |name| == |Prefix(p)| + |event|
    ensures name[..|Prefix(p)|] == Prefix(p)
  {
    Prefix(p) + Ucfirst(event)
  }

  /**
   * Two derived names are equal exactly when they have the same phase and the
   * event names agree after `ucfirst`: the derivation forgets only the case of
   * the first character.
   */
  lemma {:induction false} DerivedEqual(p1: Phase, e1: string, p2: Phase, e2: string)
    ensures Derived(p1, e1) == Derived(p2, e2) <==> p1 == p2 && Ucfirst(e1) == Ucfirst(e2)
  {
    var d1, d2 := Derived(p1, e1), Derived(p2, e2);
    if d1 == d2 {
      assert d1[0] == Prefix(p1)[0] && d2[0] == Prefix(p2)[0];
      assert p1 == p2;
      var n := |Prefix(p1)|;
      assert Ucfirst(e1) == d1[n..];
      assert Ucfirst(e2) == d2[n..];
    }
  }

  /** A derived name never equals its base name, and the two phases never collide. */
  lemma DerivedNamesDistinct(event: string)
    ensures Derived(Before, event) != event
    ensures Derived(After, event) != event
    ensures Derived(Before, event) != Derived(After, event)
  {
    DerivedEqual(Before, event, After, event);
  }

  /**
   * The composition is not injective: an event whose first character is an
   * ASCII lower-case letter and its `ucfirst` form are different names that
   * share both derived names.
   */
  lemma {:induction false} LowerAndUpperShareDerivedNames(event: string, p: Phase)
    requires |event| > 0 && IsAsciiLower(event[0])
    ensures Ucfirst(event) != event
    ensures Derived(p, Ucfirst(event)) == Derived(p, event)
  {
    assert Ucfirst(event)[0] != event[0];
    UcfirstIdempotent(event);
  }
}
