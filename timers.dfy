/**
 * Delayed callbacks scheduled with `Invoke(name, delay)` on a behaviour.
 * The model keeps the pending invocations of one object, in the order they
 * were scheduled, with their nominal delays; when the engine fires one is
 * not modelled.
 */
module Timers {

  /** The callbacks the scripts schedule by name. */
  datatype Callback = Think | DeActive | OffDamaged

  datatype Invocation = Invocation(callback: Callback, delay: real)

  /** The pending invocations of callback `c`, in scheduling order. */
  function Named(p: seq<Invocation>, c: Callback): (r: seq<Invocation>)
    ensures |r| <= |p|
    ensures forall inv :: inv in r <==> inv in p && inv.callback == c
  {
    if p == [] then []
    else (if p[0].callback == c then [p[0]] else []) + Named(p[1..], c)
  }

  lemma {:induction false} NamedConcat(a: seq<Invocation>, b: seq<Invocation>, c: Callback)
    ensures Named(a + b, c) == Named(a, c) + Named(b, c)
    decreases |a|
  {
    if a == [] {
      assert a + b == b;
    } else {
      var head := if a[0].callback == c then [a[0]] else [];
      assert (a + b)[0] == a[0] && (a + b)[1..] == a[1..] + b;
      assert Named(a + b, c) == head + Named(a[1..] + b, c);
      assert Named(a, c) == head + Named(a[1..], c);
      NamedConcat(a[1..], b, c);
      assert head + (Named(a[1..], c) + Named(b, c)) == (head + Named(a[1..], c)) + Named(b, c);
    }
  }

  /** The pending invocations once the one at index `i` has fired. */
  function Remove(p: seq<Invocation>, i: nat): (r: seq<Invocation>)
    requires i < |p|
    ensures |r| == |p| - 1
  {
    p[..i] + p[i + 1..]
  }

  /** Firing an invocation removes exactly one pending invocation of its callback. */
  lemma NamedAfterRemove(p: seq<Invocation>, i: nat, c: Callback)
    requires i < |p|
    ensures |Named(Remove(p, i), c)| == |Named(p, c)| - (if p[i].callback == c then 1 else 0)
  {
    assert p == p[..i] + ([p[i]] + p[i + 1..]);
    NamedConcat(p[..i], [p[i]] + p[i + 1..], c);
    NamedConcat([p[i]], p[i + 1..], c);
    NamedConcat(p[..i], p[i + 1..], c);
  }
}
