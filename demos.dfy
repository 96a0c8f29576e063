/**
 * Demonstration calls of index.js, written as clients of the Collections
 * contracts: the map and reduce calls on literal inputs, and the forEach call
 * that renames records, here over any array of records. Each states the result
 * the script expects and is proved from the helpers' specifications alone.
 */
module Demos {
  import opened Collections

  /** A four-element integer array holding 1, 2, 3, 4. */
  method OneToFour() returns (a: array<int>)
    ensures fresh(a)
    ensures a[..] == [1, 2, 3, 4]
  {
    a := new int[4];
    a[0], a[1], a[2], a[3] := 1, 2, 3, 4;
  }

  /** map([1, 2, 3, 4], item => item * 10) gives [10, 20, 30, 40]. */
  method MapTimesTen() returns (r: seq<int>)
    ensures r == [10, 20, 30, 40]
  {
    var a := OneToFour();
    r := Map(a, (item: int) => item * 10);
  }

  /**
   * reduce([1, 2, 3, 4], (acc, item) => { acc.push(item * 10); return acc; }, [])
   * gives [10, 20, 30, 40]. The accumulator is a fresh list that nothing else
   * refers to, so pushing onto it is appending to a value.
   */
  method ReducePushTimesTen() returns (r: seq<int>)
    ensures r == [10, 20, 30, 40]
  {
    var a := OneToFour();
    var g := (item: int) => item * 10;
    r := ReduceWith(a, PushMapped(g), []);
    ReducePushIsMap(a[..], g, 4);
  }

  /**
   * forEach(data, item => { item.name = item.name.toUpperCase(); }): every
   * record's name is rewritten in place, and the array returned is the one
   * given. `upper` stands for the string conversion; every record must have
   * a name, since reading a missing one would fail.
   */
  method UppercaseNames<V>(a: array<Record<V>>, upper: V -> V) returns (r: array<Record<V>>)
    requires forall i :: 0 <= i < a.Length ==> "name" in a[i]
    modifies a
    ensures r == a
    ensures forall i :: 0 <= i < a.Length ==> a[i] == old(a[i])["name" := upper(old(a[i])["name"])]
  {
    var rename := (item: Record<V>, i: nat, c: seq<Record<V>>) =>
      if "name" in item then item["name" := upper(item["name"])] else item;
    r := ForEach(a, rename);
    ForEachVisitsInOrder(old(a[..]), rename);
  }

  /** Addition as a reduce callback. */
  function Add(acc: int, item: int, i: nat, c: seq<int>): int
  {
    acc + item
  }

  /**
   * The defaulting rule folds the first item twice: summing [1, 2, 3] without
   * an accumulator gives 7, while starting from 0 gives 6.
   */
  lemma DefaultSeedCountsFirstTwice()
    ensures Reduced([1, 2, 3], Add, None) == Some(7)
    ensures Reduced([1, 2, 3], Add, Some(0)) == Some(6)
  {
  }
}
