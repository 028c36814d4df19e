/**
 * The parts of JavaScript's array semantics the board construction depends
 * on. An array index either holds a value or is a hole (never assigned):
 * `new Array(n)` is n holes, `map` calls its callback only where a value is
 * and leaves holes as holes, spreading an array reads a hole as `undefined`,
 * and `reverse` swaps elements in place.
 */
module JsArray {
  import opened Wrappers

  datatype Slot<T> = Hole | Elem(value: T)

  /** `new Array(n)`: length n and not a single element. */
  function NewArray<T>(n: nat): (r: seq<Slot<T>>)
    ensures |r| == n
    ensures forall i :: 0 <= i < n ==> r[i].Hole?
  {
    seq(n, _ => Hole)
  }

  /** An array of `n` copies of `v` (what `new Array(n).fill(v)` gives). */
  function Filled<T>(n: nat, v: T): (r: seq<Slot<T>>)
    ensures |r| == n
    ensures forall i :: 0 <= i < n ==> r[i] == Elem(v)
  {
    seq(n, _ => Elem(v))
  }

  /**
   * `Array.prototype.map` with a callback that has no side effects: same
   * length, holes stay holes, every element is replaced by its image.
   */
  function MapArray<A, B>(s: seq<Slot<A>>, f: A -> B): (r: seq<Slot<B>>)
    ensures |r| == |s|
    ensures forall i :: 0 <= i < |s| ==> (r[i].Hole? <==> s[i].Hole?)
    ensures forall i :: 0 <= i < |s| && s[i].Elem? ==> r[i] == Elem(f(s[i].value))
  {
    if s == [] then []
    else [if s[0].Hole? then Hole else Elem(f(s[0].value))] + MapArray(s[1..], f)
  }

  /** Mapping over `new Array(n)` never calls the callback and yields `new Array(n)` again. */
  lemma MapNewArray<A, B>(n: nat, f: A -> B)
    ensures MapArray(NewArray<A>(n), f) == NewArray<B>(n)
  {
    var r, e := MapArray(NewArray<A>(n), f), NewArray<B>(n);
    assert |r| == |e|;
    forall i | 0 <= i < n ensures r[i] == e[i] {
    }
  }

  /** Mapping over a filled array calls the callback at every index. */
  lemma MapFilled<A, B>(n: nat, v: A, f: A -> B)
    ensures MapArray(Filled(n, v), f) == Filled(n, f(v))
  {
    var r, e := MapArray(Filled(n, v), f), Filled(n, f(v));
    assert |r| == |e|;
    forall i | 0 <= i < n ensures r[i] == e[i] {
    }
  }

  /** `...s` inside an array literal: each element in order, a hole read as `undefined`. */
  function Spread<T>(s: seq<Slot<T>>): (r: seq<Option<T>>)
    ensures |r| == |s|
    ensures forall i :: 0 <= i < |s| ==> (r[i].None? <==> s[i].Hole?)
    ensures forall i :: 0 <= i < |s| && s[i].Elem? ==> r[i] == Some(s[i].value)
  {
    if s == [] then []
    else [if s[0].Hole? then None else Some(s[0].value)] + Spread(s[1..])
  }

  /** `s` back to front. */
  function Reversed<T>(s: seq<T>): (r: seq<T>)
    ensures |r| == |s|
    ensures forall i :: 0 <= i < |s| ==> r[i] == s[|s| - 1 - i]
  {
    if s == [] then [] else Reversed(s[1..]) + [s[0]]
  }

  /**
   * `Array.prototype.reverse`: swaps the elements at `lower` and `upper`
   * while the two indices have not met, on the array itself.
   */
  method Reverse<T>(a: array<T>)
    modifies a
    ensures a[..] == Reversed(old(a[..]))
  {
    ghost var before := a[..];
    var lower, upper := 0, a.Length - 1;
    while lower < upper
      invariant 0 <= lower <= a.Length && upper == a.Length - 1 - lower
      invariant forall i :: 0 <= i < lower ==> a[i] == before[a.Length - 1 - i]
      invariant forall i :: upper < i < a.Length ==> a[i] == before[a.Length - 1 - i]
      invariant forall i :: lower <= i <= upper ==> a[i] == before[i]
    {
      a[lower], a[upper] := a[upper], a[lower];
      lower, upper := lower + 1, upper - 1;
    }
    assert a[..] == Reversed(before);
  }
}
