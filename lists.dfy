/**
 * The list operations the dashboards apply to their collections: counting with
 * `filter(...).length`, selecting with `filter(...)`, deleting by id with
 * `filter(x => x.id !== id)` and updating by id with `map(x => x.id === id ? {...x, ...} : x)`.
 */
module Lists {

  /** `xs.filter(p).length`. */
  function Count<T>(xs: seq<T>, p: T -> bool): (n: nat)
    ensures n <= |xs|
    ensures n == 0 <==> forall i :: 0 <= i < |xs| ==> !p(xs[i])
    ensures n == |xs| <==> forall i :: 0 <= i < |xs| ==> p(xs[i])
  {
    if xs == [] then 0 else (if p(xs[0]) then 1 else 0) + Count(xs[1..], p)
  }

  lemma {:induction false} CountAppend<T>(a: seq<T>, b: seq<T>, p: T -> bool)
    ensures Count(a + b, p) == Count(a, p) + Count(b, p)
  {
    if a != [] {
      assert (a + b)[1..] == a[1..] + b;
      CountAppend(a[1..], b, p);
    } else {
      assert a + b == b;
    }
  }

  /** `xs.filter(p)`: the elements satisfying `p`, in their order. */
  function Filter<T(!new)>(xs: seq<T>, p: T -> bool): seq<T> {
    if xs == [] then [] else (if p(xs[0]) then [xs[0]] else []) + Filter(xs[1..], p)
  }

  /** The selected elements are exactly the elements of `xs` satisfying `p`. */
  lemma {:induction false} FilterMembers<T(!new)>(xs: seq<T>, p: T -> bool)
    ensures forall x :: x in Filter(xs, p) <==> x in xs && p(x)
  {
    if xs != [] {
      FilterMembers(xs[1..], p);
      assert xs == [xs[0]] + xs[1..];
    }
  }

  /** Selecting works piecewise. */
  lemma {:induction false} FilterAppend<T(!new)>(a: seq<T>, b: seq<T>, p: T -> bool)
    ensures Filter(a + b, p) == Filter(a, p) + Filter(b, p)
  {
    if a != [] {
      assert (a + b)[1..] == a[1..] + b;
      FilterAppend(a[1..], b, p);
    } else {
      assert a + b == b;
    }
  }

  /** Selecting from a list whose every element qualifies keeps the whole list. */
  lemma {:induction false} FilterAll<T(!new)>(xs: seq<T>, p: T -> bool)
    requires forall i :: 0 <= i < |xs| ==> p(xs[i])
    ensures Filter(xs, p) == xs
  {
    if xs != [] {
      FilterAll(xs[1..], p);
    }
  }

  /** `xs.filter(x => idOf(x) !== id)`: every element whose id is `id` goes, the rest stay. */
  function RemoveId<T(!new)>(xs: seq<T>, id: int, idOf: T -> int): (r: seq<T>)
    ensures |r| <= |xs|
    ensures forall x :: x in r <==> x in xs && idOf(x) != id
  {
    if xs == [] then []
    else (if idOf(xs[0]) == id then [] else [xs[0]]) + RemoveId(xs[1..], id, idOf)
  }

  /** Removing by id works piecewise, so the survivors keep their relative order. */
  lemma {:induction false} RemoveIdAppend<T(!new)>(a: seq<T>, b: seq<T>, id: int, idOf: T -> int)
    ensures RemoveId(a + b, id, idOf) == RemoveId(a, id, idOf) + RemoveId(b, id, idOf)
  {
    if a != [] {
      assert (a + b)[1..] == a[1..] + b;
      RemoveIdAppend(a[1..], b, id, idOf);
    } else {
      assert a + b == b;
    }
  }

  /** Removing an id that no element carries leaves the list as it was. */
  lemma {:induction false} RemoveIdAbsent<T(!new)>(xs: seq<T>, id: int, idOf: T -> int)
    requires forall i :: 0 <= i < |xs| ==> idOf(xs[i]) != id
    ensures RemoveId(xs, id, idOf) == xs
  {
    if xs != [] {
      RemoveIdAbsent(xs[1..], id, idOf);
    }
  }

  /** `xs.map(x => idOf(x) === id ? f(x) : x)`. */
  function UpdateId<T>(xs: seq<T>, id: int, idOf: T -> int, f: T -> T): (r: seq<T>)
    ensures |r| == |xs|
    ensures forall i :: 0 <= i < |xs| ==> r[i] == if idOf(xs[i]) == id then f(xs[i]) else xs[i]
  {
    if xs == [] then []
    else [if idOf(xs[0]) == id then f(xs[0]) else xs[0]] + UpdateId(xs[1..], id, idOf, f)
  }

  /** Updating by id works piecewise. */
  lemma {:induction false} UpdateIdAppend<T>(a: seq<T>, b: seq<T>, id: int, idOf: T -> int, f: T -> T)
    ensures UpdateId(a + b, id, idOf, f) == UpdateId(a, id, idOf, f) + UpdateId(b, id, idOf, f)
  {
    if a != [] {
      assert (a + b)[1..] == a[1..] + b;
      UpdateIdAppend(a[1..], b, id, idOf, f);
    } else {
      assert a + b == b;
    }
  }

  /** Updating an id that no element carries leaves the list as it was. */
  lemma UpdateIdAbsent<T>(xs: seq<T>, id: int, idOf: T -> int, f: T -> T)
    requires forall i :: 0 <= i < |xs| ==> idOf(xs[i]) != id
    ensures UpdateId(xs, id, idOf, f) == xs
  {
  }

  /** An update that keeps ids and is idempotent itself gives the same list when done twice. */
  lemma UpdateIdTwice<T>(xs: seq<T>, id: int, idOf: T -> int, f: T -> T)
    requires forall x :: idOf(f(x)) == idOf(x) && f(f(x)) == f(x)
    ensures UpdateId(UpdateId(xs, id, idOf, f), id, idOf, f) == UpdateId(xs, id, idOf, f)
  {
  }

  /** The elements satisfying `p` that carry the id `id`. */
  function Matching<T>(p: T -> bool, idOf: T -> int, id: int): T -> bool {
    x => p(x) && idOf(x) == id
  }

  /**
   * An update that always falsifies `p` lowers the count of `p` by exactly the number of
   * elements that satisfied `p` and carried the updated id.
   */
  lemma {:induction false} CountAfterUpdate<T>(xs: seq<T>, id: int, idOf: T -> int, f: T -> T, p: T -> bool)
    requires forall x :: !p(f(x))
    ensures Count(UpdateId(xs, id, idOf, f), p) + Count(xs, Matching(p, idOf, id)) == Count(xs, p)
  {
    if xs != [] {
      assert UpdateId(xs, id, idOf, f)[1..] == UpdateId(xs[1..], id, idOf, f);
      CountAfterUpdate(xs[1..], id, idOf, f, p);
    }
  }
}
