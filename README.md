# lovely.rating in Dafny

A model of the rating engine of `lovely.rating`. Ratable objects collect
ratings from users against named rating definitions. Each definition is backed
by a score system that maps score names to weights. Every ratable object has a
ratings manager. The manager adds, changes and removes ratings and notifies
observers of each change. It also lists the ratings, optionally within a time
window, and computes averages, score histograms and counts.

The modules follow the package's files:

- `wrappers.dfy`: `Option` and `Result`.
- `string_order.dfy` (`StringOrder`): the string order the package relies on. This is Python's
  `cmp` on strings, and also the ascending key order in which the manager's B-trees return their values.
- `scoresystem.dfy` (`ScoreSystems`): `SimpleScoreSystem`. Lookups go through `dict(scores)`,
  so when a name appears twice, its last pair wins.
- `definition.dfy` (`Definitions`): `RatingDefinition`.
- `rating.dfy` (`Ratings`): `Rating` and its `__cmp__`.
- `manager.dfy` (`Manager`): the `RatingsManager` class.
  - Its storage is a two-level map, `definition id -> user -> Rating`.
  - The registry of definitions is passed to each call as a map.
  - Each notification goes into a ghost log, together with the storage an observer sees while it handles the notification.
  - Python's `ValueError` and `KeyError` become values of `Error`.
- `evolve1.dfy` (`Evolve1`): the generation-1 migration. It attaches UTC to naive timestamps in place, one
  manager at a time.
- `usage.dfy` (`Usage`): call sequences that combine the contracts.
  - Rating twice with the same value is a no-op.
  - A rating can be read back after `rate` and is gone after `remove`.
  - The "quality" walk-through ends with an average of 1 and the histogram bad 1, ok 1, good 0.

The model follows the code where it departs from the interface documentation.
There is one such point: `getRating` returns `None` for a missing rating
(manager.py:114-115), while the interface documentation (interfaces.py:78-79)
says it raises `ValueError`.

The model also keeps these behaviours of the code:

- `countScores` and `countAmountRatings` accept `dtMin` and `dtMax` but never use them (manager.py:131-146).
- `countAmountRatings` never calls `_getDefinition`, so an unregistered id never raises; the result is the number of ratings stored under that id (manager.py:143-146).
- `computeAverage` divides integer weights with Python 2's `/`, which floors (manager.py:127). In the walk-through, ratings "ok" (2)
  and "bad" (1) average to the floor of 3/2, which is 1.

Timestamps are integers (an instant) paired with a flag saying whether they
carry a time zone. The clock reading that `Rating(...)` takes is the `now`
parameter of `Rate`.

## Model

| member | source | states |
|---|---|---|
| StringOrder.Cmp | src/lovely/rating/rating.py:47-48 | Python string `cmp`: the result is -1, 0 or 1, and it is 0 exactly when the strings are equal |
| StringOrder.CmpAntisymmetric | src/lovely/rating/rating.py:47-48 | swapping the operands negates the comparison |
| StringOrder.CmpTransitive | src/lovely/rating/rating.py:47-48 | "less than" is transitive |
| StringOrder.SortedKeys | src/lovely/rating/manager.py:97 | the B-tree key listing holds each key of the set exactly once: same members, same size |
| StringOrder.SortedKeysAscending | src/lovely/rating/manager.py:97 | the B-tree key listing is strictly ascending |
| ScoreSystems.AsDict | src/lovely/rating/scoresystem.py:33 | `dict(scores)` has a key exactly for each name that some pair carries |
| ScoreSystems.IsValidScore | src/lovely/rating/scoresystem.py:32-33 | a value is valid exactly when some pair carries it as its name |
| ScoreSystems.GetNumericalValue | src/lovely/rating/scoresystem.py:35-36 | a weight is found exactly for valid values; otherwise the result is the `KeyError` case |
| ScoreSystems.GetNumericalValueLastWins | src/lovely/rating/scoresystem.py:35-36 | when a name is repeated, the weight is the one in its last pair |
| ScoreSystems.GetNumericalValueOfPair | src/lovely/rating/scoresystem.py:35-36 | when names are distinct, looking up a pair's name gives that pair's weight |
| Definitions.NewDefinition | src/lovely/rating/definition.py:33-37 | title and score system are stored; the description is set only when one is given, otherwise the field keeps its default |
| Ratings.NewRating | src/lovely/rating/rating.py:35-39 | id, value and user are stored; the timestamp is the clock reading, time-zone aware (UTC) |
| Ratings.Compare | src/lovely/rating/rating.py:44-48 | three-way result; 0 exactly when id, value and user all agree |
| Ratings.CompareIsLexicographic | src/lovely/rating/rating.py:47-48 | the first differing field of `(id, value, user)` decides |
| Ratings.CompareIgnoresTimestamp | src/lovely/rating/rating.py:47-48 | the timestamp never affects the comparison |
| Ratings.CompareAntisymmetric | src/lovely/rating/rating.py:47-48 | swapping the operands negates the result; a rating equals itself |
| Ratings.CompareTransitive | src/lovely/rating/rating.py:47-48 | rating order is transitive |
| Manager.GetDefinition | src/lovely/rating/manager.py:46-52 | returns the registered definition exactly when `id` is registered, otherwise the `ValueError` case |
| Manager.Put | src/lovely/rating/manager.py:61-69 | only slot `[id][user]` changes, to the new rating; `id` becomes a key (its inner map is created on first use); the storage invariant is kept |
| Manager.Drop | src/lovely/rating/manager.py:88-90 | only slot `[id][user]` changes: it becomes empty |
| Manager.DropKeepsValid | src/lovely/rating/manager.py:88-90 | the storage invariant is kept; the inner map is dropped exactly when `user` was its only key |
| Manager.Values | src/lovely/rating/manager.py:97 | `values()` lists every stored rating once, in ascending user order |
| Manager.Filter | src/lovely/rating/manager.py:98-108 | keeps exactly the ratings whose timestamp lies within the given bounds; with no bounds, keeps everything |
| Manager.FilterKeepsOrder | src/lovely/rating/manager.py:106-108 | filtering keeps ascending user order |
| Manager.SumWeights | src/lovely/rating/manager.py:124-125 | the sum succeeds exactly when every value is valid; otherwise the error names an invalid value that occurs |
| Manager.SumWeightsBounds | src/lovely/rating/manager.py:124-125 | n ratings sum to between n times the least weight and n times the greatest |
| Manager.Tally | src/lovely/rating/manager.py:135-138 | after the loop, `value_count.get(v, 0)` is the number of ratings with value `v` |
| Manager.HistogramAddsUp | src/lovely/rating/manager.py:135-141 | with distinct names, and every value among them, the per-name counts add up to the number of ratings |
| Manager.RatingsManager.constructor | src/lovely/rating/manager.py:43-44 | the manager starts with empty storage and no notification sent |
| Manager.RatingsManager.Rate | src/lovely/rating/manager.py:54-76 | each outcome happens exactly under its condition: unknown definition, invalid value, same value already stored (returns false, no change, no event), or a new or changed value (stored with the clock reading; Added or Changed is sent after the store) |
| Manager.RatingsManager.Remove | src/lovely/rating/manager.py:78-91 | unknown definition is an error; a missing rating returns false with no change; otherwise Removed is sent while the rating is still stored, then the slot is deleted and an emptied inner map dropped |
| Manager.RatingsManager.GetRatings | src/lovely/rating/manager.py:93-108 | unknown definition is an error; otherwise exactly the stored ratings for `id` within the window, in user order, all of them when there are no bounds |
| Manager.RatingsManager.GetRating | src/lovely/rating/manager.py:110-117 | unknown definition is an error; otherwise the stored rating, or `None` exactly when there is none |
| Manager.RatingsManager.ComputeAverage | src/lovely/rating/manager.py:119-129 | unknown definition is an error; an empty window gives -1; an unknown stored value propagates the lookup error; otherwise the floor of the total weight over the count |
| Manager.RatingsManager.CountScores | src/lovely/rating/manager.py:131-141 | one entry per score pair, in the score system's order, counting all stored ratings for `id` with that name (no window applied) |
| Manager.RatingsManager.CountAmountRatings | src/lovely/rating/manager.py:143-146 | the number of stored ratings for `id`; zero exactly when `id` has no inner map |
| Manager.CountAmountIsLengthOfGetRatings | src/lovely/rating/manager.py:143-146 | `countAmountRatings` equals the length of an unbounded `getRatings` |
| Manager.AverageWithinWeights | src/lovely/rating/manager.py:119-129 | a non-empty average lies between the least and the greatest weight |
| Manager.AverageOfNothing | src/lovely/rating/manager.py:126-129 | when no stored rating falls in the window, the average is exactly -1 |
| Manager.CountScoresAddUp | src/lovely/rating/manager.py:131-146 | any histogram matching what `countScores` returns adds up to `countAmountRatings`, when the names are distinct and every stored value is one of them |
| Manager.NameCountsAddUp | src/lovely/rating/manager.py:131-146 | when every stored value is a distinct score name, the histogram counts add up to `countAmountRatings` |
| Evolve1.NormalizeInner | src/lovely/rating/generations/evolve1.py:11-14 | the inner loop leaves every rating of one definition normalised |
| Evolve1.Evolve | src/lovely/rating/generations/evolve1.py:10-14 | the pass over one manager normalises its whole storage, keeps the invariant and sends no notification |
| Evolve1.NormalizedFacts | src/lovely/rating/generations/evolve1.py:12-14 | afterwards every timestamp is aware with its instant unchanged, aware ones are untouched, and keys, ids, values and users stay the same |
| Evolve1.NormalizedKeepsValid | src/lovely/rating/generations/evolve1.py:10-14 | the migration keeps the storage invariant |
| Evolve1.NormalizedIdempotent | src/lovely/rating/generations/evolve1.py:12-14 | running the migration twice gives the same result as running it once |
| Usage.RateTwice | src/lovely/rating/manager.py:64-67 | repeating a successful `rate` with the same value returns false; the final storage and log are those the first call alone leaves (its one Added or Changed notification, and the first timestamp); a failure repeats itself |
| Usage.RateThenGet | src/lovely/rating/manager.py:110-117 | after a successful `rate`, `getRating` returns a rating with that id, value and user |
| Usage.RemoveThenGet | src/lovely/rating/manager.py:78-91 | after a successful `remove`, `getRating` returns `None` and every other slot is unchanged |
| Usage.AliceChangesHerMind | src/lovely/rating/manager.py:54-76 | rating good and then ok leaves exactly Alice's ok rating; the events are Added, then Changed, and `getRating` between the two calls returns the first rating |
| Usage.BobJoins | src/lovely/rating/manager.py:54-76 | a first rating by another user is added beside the existing one, with one Added event |
| Usage.Scenario | src/lovely/rating/manager.py:54-91 | Alice rates good then ok, and Bob rates bad: both ratings are stored and no other user is. Removing Carol, who never rated, returns false. The second event is Changed and two ratings are counted |
| Usage.ScenarioCounts | src/lovely/rating/manager.py:131-141 | the walk-through's histogram is bad 1, ok 1, good 0, in score order |
| Usage.AverageOfAliceAndBob | src/lovely/rating/manager.py:119-129 | the walk-through's average of weights 2 and 1 is 1 (floor division) |
| Usage.TwoListed | src/lovely/rating/manager.py:97 | Alice's rating is listed before Bob's |
| Usage.CountsOfAliceAndBob | src/lovely/rating/manager.py:135-138 | the walk-through's ratings hold one "bad", one "ok" and no "good" |

## Left out

- Persistence, the `OOBTree` type, `contained.contained` and the annotation factory: the storage is a map. Its key order is modelled through `StringOrder.SortedKeys`.
- Component lookup (`queryUtility`) is replaced by a registry map passed to each call. The ratable object (`__parent__`) carried by events is not modelled.
- Event dispatch (`zope.event.notify`) is modelled as an append to a ghost log. Subscribers and their side effects are not modelled.
- The clock (`datetime.now(UTC)`) is the `now` parameter.
- Time zones are reduced to an instant plus a has-time-zone flag.
- Manager.RatingsManager.GetRatings: compares instants. In Python, comparing a naive timestamp (data from before the migration) with an aware bound raises `TypeError`, and the model does not capture that.
- Manager.RatingsManager.ComputeAverage: weights are integers. Float weights and true division are not modelled.
- Score values are strings. Other hashable score names are not modelled.
- `Rating.__cmp__` against an object that is not a `Rating` falls back to the default comparison, which is not modelled.
- Schema validation by `FieldProperty` on `RatingDefinition` is not modelled.
- The `__repr__` methods are not modelled.
- The outer loops of `evolve` (finding every ratable object in the database) are not modelled. The model covers the pass over one manager.
- Rating identity and aliasing: `Rating` is a value. The migration replaces map entries instead of mutating shared rating objects.
- `generations/helper.py` and `browser/views.py` are not part of this model.
