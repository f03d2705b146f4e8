/**
 Go's pointers and slices on the heap.  A pointer is a nullable Cell, and so is a map; a slice is a
 nullable array, where null is the nil slice and differs from the empty one.
 */
module Pointers {
  import opened OjsTypes

  class Cell<T> {
    var v: T

    constructor (v: T)
      ensures this.v == v
    {
      this.v := v;
    }
  }

  function Deref<T>(p: Cell?<T>): Option<T>
    reads p
  {
    if p == null then None else Some(p.v)
  }

  function Elements<T>(a: array?<T>): Option<seq<T>>
    reads a
  {
    if a == null then None else Some(a[..])
  }

  /** The storage behind a pointer or slice. */
  function Ref(o: object?): set<object> {
    if o == null then {} else {o}
  }

  /** A new cell for whatever the pointer points to. */
  method CopyPointer<T>(p: Cell?<T>) returns (q: Cell?<T>)
    ensures Deref(q) == Deref(p) && fresh(Ref(q))
  {
    if p == null {
      return null;
    }
    q := new Cell(p.v);
  }

  /** A new array, filled element by element. */
  method CopySlice<T(0)>(a: array?<T>) returns (b: array?<T>)
    ensures Elements(b) == Elements(a) && fresh(Ref(b))
  {
    if a == null {
      return null;
    }
    b := new T[a.Length];
    for i := 0 to a.Length
      invariant b[..i] == a[..i]
    {
      b[i] := a[i];
    }
    assert a[..] == a[..a.Length] && b[..] == b[..b.Length];
  }
}
