/**
 * The collection helpers of index.js: forEach, filter, map, pluckProperties,
 * pluck and reduce. Each helper is a counting loop over an array (or over a
 * key list); each is proved against a specification function, and the
 * properties the helpers promise are lemmas about those functions.
 *
 * Collections are arrays because JavaScript passes arrays by reference:
 * forEach writes into the array it is given, while filter, map, pluck and
 * reduce carry no `modifies` clause, so Dafny itself checks that they never
 * change their input. The lists they build with `push` are fresh local
 * values, returned as sequences.
 */
module Collections {

  /** A JavaScript value that may be `undefined` (None). */
  datatype Option<T> = None | Some(value: T)

  /** A plain object: property names bound to values. */
  type Record<V> = map<string, V>

  /** Property access `obj[key]`: undefined when the object lacks the key. */
  function Get<V>(obj: Record<V>, key: string): Option<V>
  {
    if key in obj then Some(obj[key]) else None
  }

  // ---------------------------------------------------------------------------
  // forEach
  // ---------------------------------------------------------------------------

  /**
   * The collection after the callback has been applied, in ascending order, to
   * the indices 0 .. n-1. The callback receives the item, its index and the
   * collection as it stands at that moment, and returns the item's new value.
   */
  function Visited<T>(s: seq<T>, f: (T, nat, seq<T>) -> T, n: nat): (r: seq<T>)
    requires n <= |s|
    ensures |r| == |s|
    ensures r[n..] == s[n..]
  {
    if n == 0 then s
    else
      var t := Visited(s, f, n - 1);
      assert t[n - 1..] == s[n - 1..];
      assert t[n..] == t[n - 1..][1..];
      t[n - 1 := f(t[n - 1], n - 1, t)]
  }

  /** Later visits never change an index that an earlier visit already wrote. */
  lemma {:induction false} VisitedPrefixStable<T>(s: seq<T>, f: (T, nat, seq<T>) -> T, m: nat, n: nat)
    requires m <= n <= |s|
    ensures Visited(s, f, n)[..m] == Visited(s, f, m)[..m]
  {
    if m < n {
      VisitedPrefixStable(s, f, m, n - 1);
      var t := Visited(s, f, n - 1);
      assert Visited(s, f, n)[..m] == t[..m];
    }
  }

  /**
   * forEach visits every index exactly once, in ascending order: the final
   * value at index k is the callback applied to the original item at k, with
   * index k, seeing a collection whose indices below k already hold their
   * final values and whose indices from k on are still the originals.
   */
  lemma ForEachVisitsInOrder<T>(s: seq<T>, f: (T, nat, seq<T>) -> T)
    ensures |Visited(s, f, |s|)| == |s|
    ensures forall k :: 0 <= k < |s| ==>
              var r := Visited(s, f, |s|);
              r[k] == f(s[k], k, r[..k] + s[k..])
  {
    var r := Visited(s, f, |s|);
    forall k | 0 <= k < |s|
      ensures r[k] == f(s[k], k, r[..k] + s[k..])
    {
      var t := Visited(s, f, k);
      VisitedPrefixStable(s, f, k, |s|);
      VisitedPrefixStable(s, f, k + 1, |s|);
      assert t == t[..k] + t[k..];
      assert t[k..] == s[k..];
      assert r[k] == Visited(s, f, k + 1)[..k + 1][k];
    }
  }

  /** A callback that returns every item unchanged leaves the collection as it was. */
  lemma {:induction false} ForEachUnchanged<T>(s: seq<T>, f: (T, nat, seq<T>) -> T, n: nat)
    requires n <= |s|
    requires forall x, i, c :: f(x, i, c) == x
    ensures Visited(s, f, n) == s
  {
    if n > 0 {
      ForEachUnchanged(s, f, n - 1);
    }
  }

  /**
   * index.js forEach: runs the callback on every element in place and returns
   * the very array it was given.
   */
  method ForEach<T>(a: array<T>, f: (T, nat, seq<T>) -> T) returns (r: array<T>)
    modifies a
    ensures r == a
    ensures a[..] == Visited(old(a[..]), f, a.Length)
  {
    for i := 0 to a.Length
      invariant a[..] == Visited(old(a[..]), f, i)
    {
      a[i] := f(a[i], i, a[..]);
    }
    r := a;
  }

  // ---------------------------------------------------------------------------
  // filter
  // ---------------------------------------------------------------------------

  /** The items among the first n that the predicate accepts, in their order. */
  function Kept<T>(s: seq<T>, p: (T, nat, seq<T>) -> bool, n: nat): (r: seq<T>)
    requires n <= |s|
    ensures |r| <= n
  {
    if n == 0 then []
    else Kept(s, p, n - 1) + (if p(s[n - 1], n - 1, s) then [s[n - 1]] else [])
  }

  /** The indices among the first n whose items the predicate accepts, ascending. */
  function KeptIndices<T>(s: seq<T>, p: (T, nat, seq<T>) -> bool, n: nat): seq<nat>
    requires n <= |s|
  {
    if n == 0 then []
    else KeptIndices(s, p, n - 1) + (if p(s[n - 1], n - 1, s) then [n - 1] else [])
  }

  /**
   * What filter returns is an order-preserving subsequence of its input: the
   * j-th kept item is the item at the j-th accepted index, the accepted indices
   * ascend, and an index is accepted exactly when the predicate holds there.
   */
  lemma {:induction false} KeptIsSubsequence<T>(s: seq<T>, p: (T, nat, seq<T>) -> bool, n: nat)
    requires n <= |s|
    ensures |Kept(s, p, n)| == |KeptIndices(s, p, n)|
    ensures forall j :: 0 <= j < |KeptIndices(s, p, n)| ==>
              KeptIndices(s, p, n)[j] < n && Kept(s, p, n)[j] == s[KeptIndices(s, p, n)[j]]
    ensures forall j1, j2 :: 0 <= j1 < j2 < |KeptIndices(s, p, n)| ==>
              KeptIndices(s, p, n)[j1] < KeptIndices(s, p, n)[j2]
    ensures forall k :: 0 <= k < n ==> (k in KeptIndices(s, p, n) <==> p(s[k], k, s))
  {
    if n > 0 {
      KeptIsSubsequence(s, p, n - 1);
    }
  }

  /**
   * For a predicate on the item alone: a value is in the result of filter
   * exactly when it is in the input and the predicate accepts it.
   */
  lemma FilterByItem<T>(s: seq<T>, q: T -> bool, x: T)
    ensures x in Kept(s, (y: T, i: nat, c: seq<T>) => q(y), |s|) <==> x in s && q(x)
  {
    var p := (y: T, i: nat, c: seq<T>) => q(y);
    var r, idx := Kept(s, p, |s|), KeptIndices(s, p, |s|);
    KeptIsSubsequence(s, p, |s|);
    if x in r {
      var j :| 0 <= j < |r| && r[j] == x;
      assert p(s[idx[j]], idx[j], s) by { assert idx[j] in idx; }
    }
    if x in s && q(x) {
      var k :| 0 <= k < |s| && s[k] == x;
      assert p(s[k], k, s);
      var j :| 0 <= j < |idx| && idx[j] == k;
      assert r[j] == x;
    }
  }

  /**
   * index.js filter: a new list of the items, in order, for which the callback
   * returns true; the input array is left as it was.
   */
  method Filter<T>(a: array<T>, p: (T, nat, seq<T>) -> bool) returns (r: seq<T>)
    ensures r == Kept(a[..], p, a.Length)
  {
    r := [];
    for i := 0 to a.Length
      invariant r == Kept(a[..], p, i)
    {
      var found := p(a[i], i, a[..]);
      if found {
        r := r + [a[i]];
      }
    }
  }

  // ---------------------------------------------------------------------------
  // map
  // ---------------------------------------------------------------------------

  /**
   * index.js map: a new list as long as the input whose i-th entry is the
   * callback applied to the i-th item (the callback receives the item only).
   */
  method Map<T, U>(a: array<T>, f: T -> U) returns (r: seq<U>)
    ensures |r| == a.Length
    ensures forall i :: 0 <= i < a.Length ==> r[i] == f(a[i])
  {
    r := [];
    for i := 0 to a.Length
      invariant |r| == i
      invariant forall j :: 0 <= j < i ==> r[j] == f(a[j])
    {
      r := r + [f(a[i])];
    }
  }

  // ---------------------------------------------------------------------------
  // pluckProperties and pluck
  // ---------------------------------------------------------------------------

  /**
   * The record that pluckProperties builds: exactly the requested keys, each
   * bound to the source's value, or to undefined when the source lacks it.
   */
  function Projection<V>(obj: Record<V>, properties: seq<string>): (r: map<string, Option<V>>)
    ensures r.Keys == set k | k in properties
    ensures forall k :: k in properties && k in obj ==> r[k] == Some(obj[k])
    ensures forall k :: k in properties && k !in obj ==> r[k] == None
  {
    map k | k in properties :: Get(obj, k)
  }

  /**
   * index.js pluckProperties: a new record holding exactly the requested keys,
   * each bound to the source's value for it (undefined when the source lacks
   * it). The source record is a value and so is never changed.
   */
  method PluckProperties<V>(obj: Record<V>, properties: seq<string>) returns (r: map<string, Option<V>>)
    ensures r.Keys == set k | k in properties
    ensures forall k :: k in r ==> r[k] == Get(obj, k)
    ensures r == Projection(obj, properties)
  {
    r := map[];
    for i := 0 to |properties|
      invariant r.Keys == set k | k in properties[..i]
      invariant forall k :: k in r ==> r[k] == Get(obj, k)
    {
      var key := properties[i];
      assert properties[..i + 1] == properties[..i] + [key];
      r := r[key := Get(obj, key)];
    }
    assert properties[..|properties|] == properties;
  }

  /** What pluck is given: one record, or an array of records (`instanceof Array`). */
  datatype Target<V> = Single(record: Record<V>) | Many(records: array<Record<V>>)

  /** What pluck returns: one plucked record, or a list of them. */
  datatype Plucked<V> = One(fields: map<string, Option<V>>) | Each(items: seq<map<string, Option<V>>>)

  /**
   * index.js pluck: on a single record it is pluckProperties; on an array it
   * is map of pluckProperties over the elements, keeping length and order.
   */
  method Pluck<V>(target: Target<V>, properties: seq<string>) returns (r: Plucked<V>)
    ensures target.Single? ==> r == One(Projection(target.record, properties))
    ensures target.Many? ==> r.Each? && |r.items| == target.records.Length
    ensures target.Many? ==> forall i :: 0 <= i < target.records.Length ==>
              r.items[i] == Projection(target.records[i], properties)
  {
    match target
    case Single(record) =>
      var fields := PluckProperties(record, properties);
      r := One(fields);
    case Many(records) =>
      var items := Map(records, (item: Record<V>) => Projection(item, properties));
      r := Each(items);
  }

  // ---------------------------------------------------------------------------
  // reduce
  // ---------------------------------------------------------------------------

  /**
   * Left fold of the items at indices lo .. hi-1, starting from acc: the
   * callback receives the accumulator, the item, its index and the whole
   * collection, and returns the next accumulator.
   */
  function FoldFrom<T, A>(s: seq<T>, f: (A, T, nat, seq<T>) -> A, acc: A, lo: nat, hi: nat): A
    requires lo <= hi <= |s|
    decreases hi - lo
  {
    if hi == lo then acc else f(FoldFrom(s, f, acc, lo, hi - 1), s[hi - 1], hi - 1, s)
  }

  /** Left fold of the first n items. */
  function FoldLeft<T, A>(s: seq<T>, f: (A, T, nat, seq<T>) -> A, acc: A, n: nat): A
    requires n <= |s|
  {
    FoldFrom(s, f, acc, 0, n)
  }

  /**
   * The loop of index.js reduce, with an accumulator the caller supplied: the
   * accumulator may be of any type, and every item is folded in, left to right.
   */
  method ReduceWith<T, A>(a: array<T>, f: (A, T, nat, seq<T>) -> A, acc: A) returns (r: A)
    ensures r == FoldLeft(a[..], f, acc, a.Length)
  {
    r := acc;
    for i := 0 to a.Length
      invariant r == FoldLeft(a[..], f, acc, i)
    {
      r := f(r, a[i], i, a[..]);
    }
  }

  /**
   * What index.js reduce returns. With no accumulator the seed is the first
   * item (undefined for an empty collection), and index 0 is still folded in.
   */
  function Reduced<T>(s: seq<T>, f: (T, T, nat, seq<T>) -> T, acc: Option<T>): Option<T>
  {
    match acc
    case Some(x) => Some(FoldLeft(s, f, x, |s|))
    case None => if |s| == 0 then None else Some(FoldLeft(s, f, s[0], |s|))
  }

  /**
   * index.js reduce with its optional accumulator (None stands for an argument
   * whose type is undefined). The defaulting rule seeds the fold with the first
   * item, so the accumulator and the items share one type here.
   */
  method Reduce<T>(a: array<T>, f: (T, T, nat, seq<T>) -> T, acc: Option<T>) returns (r: Option<T>)
    ensures acc.Some? ==> r == Some(FoldLeft(a[..], f, acc.value, a.Length))
    ensures acc.None? && a.Length == 0 ==> r == None
    ensures acc.None? && a.Length > 0 ==> r == Some(FoldLeft(a[..], f, a[0], a.Length))
    ensures r == Reduced(a[..], f, acc)
  {
    var seed := acc;
    if seed.None? {
      seed := if a.Length == 0 then None else Some(a[0]);
    }
    match seed
    case None =>
      r := None;
    case Some(x) =>
      var v := ReduceWith(a, f, x);
      r := Some(v);
  }

  /** Without an accumulator, a one-item collection [x] reduces to f(x, x, 0, [x]). */
  lemma ReduceDefaultSingleton<T>(x: T, f: (T, T, nat, seq<T>) -> T)
    ensures Reduced([x], f, None) == Some(f(x, x, 0, [x]))
  {
    assert FoldLeft([x], f, x, 1) == f(FoldLeft([x], f, x, 0), x, 0, [x]);
  }

  /** On an empty collection reduce returns the accumulator, or undefined without one. */
  lemma ReduceEmpty<T>(f: (T, T, nat, seq<T>) -> T, acc: Option<T>)
    ensures Reduced([], f, acc) == acc
  {
  }

  /**
   * Without an accumulator the fold starts from the first item and then folds
   * that same item again at index 0: the result is the fold of the remaining
   * indices started from f(s[0], s[0], 0, s).
   */
  lemma {:induction false} ReduceDefaultFoldsFirstTwice<T>(s: seq<T>, f: (T, T, nat, seq<T>) -> T, n: nat)
    requires 0 < n <= |s|
    ensures FoldLeft(s, f, s[0], n) == FoldFrom(s, f, f(s[0], s[0], 0, s), 1, n)
  {
    if n > 1 {
      ReduceDefaultFoldsFirstTwice(s, f, n - 1);
    }
  }

  /** The callback of the push example: append g(item) to the accumulated list. */
  function PushMapped<T, U>(g: T -> U): (seq<U>, T, nat, seq<T>) -> seq<U>
  {
    (acc: seq<U>, item: T, i: nat, c: seq<T>) => acc + [g(item)]
  }

  /**
   * Reducing from [] with a callback that pushes g(item) and returns the
   * accumulator builds the same list as map with g.
   */
  lemma {:induction false} ReducePushIsMap<T, U>(s: seq<T>, g: T -> U, n: nat)
    requires n <= |s|
    ensures |FoldLeft(s, PushMapped(g), [], n)| == n
    ensures forall i :: 0 <= i < n ==> FoldLeft(s, PushMapped(g), [], n)[i] == g(s[i])
  {
    if n > 0 {
      ReducePushIsMap(s, g, n - 1);
    }
  }
}
