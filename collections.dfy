/** The two mutable collections the side panels keep: a JavaScript `Set` of
    ids (iterated, and so stored, in insertion order) and an array of strings
    that can be shared between two configuration objects, so that a `push`
    through one is seen through the other. */
module JsCollections {
  import opened Sequences
  import opened Storage

  /** `set.add(x)`: a new element goes to the end; an old one stays put. */
  function SetAdd<T(==,!new)>(s: seq<T>, x: T): (r: seq<T>)
    ensures forall y :: y in r <==> y in s || y == x
    ensures NoDup(s) ==> NoDup(r)
    ensures s <= r
  {
    if x in s then s else s + [x]
  }

  /** `arr.filter(y => y !== x)`, which is also `set.delete(x)` on an order-
      keeping set. */
  function Without<T(==,!new)>(s: seq<T>, x: T): (r: seq<T>)
    ensures forall y :: y in r <==> y in s && y != x
    ensures |r| <= |s|
  {
    var r := Filter(s, y => y != x);
    FilterMembers(s, y => y != x);
    r
  }

  /** An element is kept by `Filter` exactly when it occurs and passes. */
  lemma FilterMembers<T(!new)>(s: seq<T>, p: T -> bool)
    ensures forall y :: y in Filter(s, p) <==> y in s && p(y)
  {
    forall y | y in Filter(s, p) ensures y in s && p(y) {
      var i :| 0 <= i < |Filter(s, p)| && Filter(s, p)[i] == y;
    }
    forall y | y in s && p(y) ensures y in Filter(s, p) {
      var i :| 0 <= i < |s| && s[i] == y;
    }
  }

  /** Removing an element from a duplicate-free sequence keeps it
      duplicate-free and shortens it by exactly one when the element was
      there, and not at all otherwise. */
  lemma {:induction false} WithoutNoDup<T(!new)>(s: seq<T>, x: T)
    requires NoDup(s)
    ensures NoDup(Without(s, x))
    ensures |Without(s, x)| == if x in s then |s| - 1 else |s|
  {
    if s != [] {
      assert NoDup(s[1..]);
      WithoutNoDup(s[1..], x);
      assert Filter(s, y => y != x) == (if s[0] != x then [s[0]] else []) + Filter(s[1..], y => y != x);
      assert Without(s, x) == (if s[0] != x then [s[0]] else []) + Without(s[1..], x);
      assert s[0] !in s[1..];
      if s[0] != x {
        assert x in s <==> x in s[1..];
      }
    }
  }

  /** Removing an absent element changes nothing. */
  lemma {:induction false} WithoutAbsent<T(!new)>(s: seq<T>, x: T)
    requires x !in s
    ensures Without(s, x) == s
  {
    if s != [] {
      WithoutAbsent(s[1..], x);
      assert Filter(s, y => y != x) == [s[0]] + Filter(s[1..], y => y != x);
    }
  }

  /** Adding a new id and deleting it again restores the set, order included. */
  lemma AddThenDelete<T(!new)>(s: seq<T>, x: T)
    requires x !in s
    ensures Without(SetAdd(s, x), x) == s
  {
    var t := s + [x];
    assert Filter(t, y => y != x) == Filter(s, y => y != x) + Filter([x], y => y != x) by {
      FilterAppend(s, [x], y => y != x);
    }
    assert Filter([x], y => y != x) == [] + Filter([x][1..], y => y != x);
    WithoutAbsent(s, x);
  }

  /** Filtering distributes over concatenation. */
  lemma {:induction false} FilterAppend<T>(a: seq<T>, b: seq<T>, p: T -> bool)
    ensures Filter(a + b, p) == Filter(a, p) + Filter(b, p)
  {
    if a == [] {
      assert a + b == b;
    } else {
      var head := if p(a[0]) then [a[0]] else [];
      calc {
        Filter(a + b, p);
        { assert (a + b)[0] == a[0] && (a + b)[1..] == a[1..] + b; }
        head + Filter(a[1..] + b, p);
        { FilterAppend(a[1..], b, p); }
        head + (Filter(a[1..], p) + Filter(b, p));
        (head + Filter(a[1..], p)) + Filter(b, p);
        Filter(a, p) + Filter(b, p);
      }
    }
  }

  /** A JavaScript array of strings: one object that several configuration
      objects may point at. */
  class StringArray {
    var items: seq<string>

    constructor(initial: seq<string>)
      ensures items == initial
    {
      items := initial;
    }

    /** `arr.push(x)`, in place. */
    method Push(x: string)
      modifies this
      ensures items == old(items) + [x]
    {
      items := items + [x];
    }
  }
}
