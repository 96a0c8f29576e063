# functional-basic-examples: collection helpers in Dafny

This project models the six collection helpers of `index.js` — `forEach`,
`filter`, `map`, `pluckProperties`, `pluck` and `reduce` — and proves what
each of them promises.

Each helper except `pluck` is a counting `for` loop in the source. Here each
is a Dafny method with the same loop, proved against a specification function
or stated directly in its postcondition:

- Collections are `array<T>`, because JavaScript passes arrays by reference.
  `ForEach` has `modifies a`: it writes each callback result back into the
  array it was given, and it returns that same array.
- `Filter`, `Map`, `ReduceWith`, `Reduce` and `Pluck` have no `modifies`
  clause. Dafny's frame rules therefore check that they never change their
  input.
- The lists that `filter` and `map` build with `push` are fresh local values,
  returned as `seq`.
- A record (a plain JavaScript object) is a `map<string, V>`. Reading a
  property yields `Option<V>`: `None` stands for `undefined`, and `Get` models
  the property access.
- Callbacks are total Dafny function values. The `forEach`, `filter` and
  `reduce` callbacks receive the item, its index and the collection, as the
  source passes them. The `map` callback receives only the item (index.js:83).
- `pluck` tests `instanceof Array` at run time. Here its argument is the
  tagged union `Target` (`Single` record or `Many` records) and its result is
  `Plucked`.
- `reduce` with a supplied accumulator of any type is `ReduceWith`, which is
  lines 228-232. `reduce` with an optional accumulator is `Reduce`. It takes an
  `Option<T>` and keeps the source's defaulting rule: without an accumulator
  the seed is `collection[0]`, index 0 is still folded in, and on an empty
  collection the result is `undefined`.

The module `Demos` restates three of the script's demonstration calls as
client methods, proved from the helpers' contracts alone. The `map` call at
index.js:114-116 and the `reduce` call at index.js:248-252 have literal
inputs. The `forEach` call at index.js:31-33 runs over the dataset; its model
takes any array of records.

Where the documentation and the code disagree, the model follows the code:

- The doc comment of `filter` (index.js:43) says it returns the collection
  that was passed in. The code returns a new list (index.js:46-53).
- The doc comment of `reduce` (index.js:218-220) says only that a missing
  accumulator takes the first item's value. A conventional fold would then
  begin at the second item. The code folds every index, including 0
  (index.js:228-230). `ReduceDefaultFoldsFirstTwice` and
  `Demos.DefaultSeedCountsFirstTwice` exhibit this.

## Model

| member | source | states |
|---|---|---|
| `Collections.ForEach` | index.js:13-19 | returns the very array it was given; the array afterwards is the result of applying the callback to every index, in order, each call seeing the array as it stands |
| `Collections.Visited` | index.js:14-16 | the collection keeps its length, and indices the loop has not reached yet are unchanged |
| `Collections.VisitedPrefixStable` | index.js:14-16 | a later iteration never changes an index an earlier iteration already wrote |
| `Collections.ForEachVisitsInOrder` | index.js:13-19 | every index is visited exactly once, in ascending order: the final item at k is the callback applied to the original item at k, with index k, seeing the collection whose earlier indices are already updated and whose later ones are not |
| `Collections.ForEachUnchanged` | index.js:13-19 | a callback that changes no item leaves the collection as it was |
| `Collections.Filter` | index.js:45-54 | returns the items accepted by the callback, in order, as a new list; the input array is not modified |
| `Collections.Kept` | index.js:45-54 | the filtered list is never longer than the input |
| `Collections.KeptIsSubsequence` | index.js:45-54 | the result is an order-preserving subsequence: its j-th item is the item at the j-th accepted index, accepted indices ascend, and an index is accepted if and only if the predicate holds there (so an empty input gives an empty result) |
| `Collections.FilterByItem` | index.js:47-51 | for a predicate on the item alone, a value is in the result if and only if it is in the input and satisfies the predicate |
| `Collections.Map` | index.js:80-87 | the new list has the input's length, and its i-th entry is the callback applied to the i-th item; the input array is not modified |
| `Collections.Projection` | index.js:127-136 | the plucked record has exactly the requested keys; each key present in the source is bound to the source's value, each absent key to undefined |
| `Collections.PluckProperties` | index.js:127-136 | the record the loop builds has exactly the requested keys, each bound to the source's value or to undefined, and equals the projection |
| `Collections.Pluck` | index.js:178-188 | on a single record the result is the projection of that record; on an array of records it is a list of the same length whose i-th entry is the projection of the i-th record |
| `Collections.ReduceWith` | index.js:228-232 | with a supplied accumulator the result is the left fold of the callback over every item, from index 0 upward |
| `Collections.Reduce` | index.js:223-233 | with an accumulator the result is its left fold; without one the fold is seeded with the first item and still folds index 0; with neither an accumulator nor items the result is undefined |
| `Collections.ReduceDefaultSingleton` | index.js:224-230 | without an accumulator, reducing [x] gives f(x, x, 0, [x]) |
| `Collections.ReduceEmpty` | index.js:224-232 | reducing an empty collection returns the accumulator, or undefined when none was given |
| `Collections.ReduceDefaultFoldsFirstTwice` | index.js:224-230 | without an accumulator, the result is the fold of indices 1 onward started from f(s[0], s[0], 0, s): the first item is combined with itself before the rest is folded |
| `Collections.ReducePushIsMap` | index.js:241-252 | reducing from [] with a callback that pushes g(item) and returns the accumulator builds the list of g applied to every item, in order |
| `Demos.MapTimesTen` | index.js:114-116 | multiplying each of [1, 2, 3, 4] by 10 with map gives [10, 20, 30, 40] |
| `Demos.ReducePushTimesTen` | index.js:248-252 | reducing [1, 2, 3, 4] with the push callback from [] gives [10, 20, 30, 40] |
| `Demos.UppercaseNames` | index.js:31-33 | forEach with a callback that rewrites each record's name leaves every record with its name converted in place, and returns the same array |
| `Demos.DefaultSeedCountsFirstTwice` | index.js:223-233 | summing [1, 2, 3] without an accumulator gives 7, because the first item is counted twice; starting from 0 gives 6 |

## Left out

- Gruntfile.js is not part of this model. It is build, lint and documentation configuration for external task-runner plugins. `getCLOption` only wraps a command-line option lookup whose behaviour is not visible.
- `console.log(result)` (index.js:311) is output only.
- The sample dataset `./lib/data` is not part of this model. The demonstration calls that use it are not restated: index.js:66-68, 100-102, 149-150, 162-164, 198, 208 and 291-302, with the expected output at 276-288.
- `toUpperCase` (index.js:32) is a library call. `Demos.UppercaseNames` takes it as the parameter `upper`.
- Demos.UppercaseNames: it requires every record to have a `name`. The source reads `item.name.toUpperCase()` (index.js:32), which throws a TypeError on a record without one; that error path is not modelled.
- JavaScript truthiness: the `filter` callback returns a `bool`.
- Callbacks that change the collection, or any item other than through forEach's returned value, are not modelled. The source hands the collection to the callbacks at index.js:15, 48 and 229, so a callback could resize it, write another index, or change items during filter, map or reduce. Here callbacks are pure: the length is fixed, `ForEach` writes only index i on step i, and `Filter`, `Map` and `Reduce` change nothing.
- Callbacks that return nothing are not modelled. In `reduce` such a callback silently turns the accumulator into `undefined`. Here a callback always returns an accumulator.
- Collections.ForEach: the callback returns the item's new value, which is written back at its index. A JavaScript callback instead mutates the object the item refers to. The two agree when no two indices share one object.
- Collections.PluckProperties: the key order of the result is not modelled, since a Dafny `map` is unordered. JavaScript keeps insertion order.
- Collections.Projection: record values are always defined here. If `V` is itself an `Option`, a key bound to `None` plucks to `Some(None)`, while a missing key plucks to `None`. JavaScript returns `undefined` for both (index.js:132).
- Collections.Projection: a record is modelled by its own properties only. In JavaScript `object[key]` (index.js:132) also finds inherited properties, so plucking `toString` yields `Object.prototype.toString`; here an inherited name reads as `None`.
- Collections.PluckProperties: `"__proto__"` is treated as an ordinary key. In JavaScript `result['__proto__'] = …` (index.js:132) sets the result's prototype and creates no own key; here the key set always contains every requested name. Inherited names read as `None`, as for `Collections.Projection`.
- Collections.Reduce: when the accumulator may be omitted, the accumulator and the items have one type `T`, because the default seed is an item. A supplied accumulator of any other type goes through `Collections.ReduceWith`.
- Collections.Pluck: the extra arguments that `pluckProperties.apply(null, arguments)` forwards are not modelled. `pluckProperties` ignores them.
