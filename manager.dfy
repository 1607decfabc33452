/**
 * `RatingsManager`: the ratings of one ratable object, kept in a two-level
 * map from definition id to user to `Rating`. Definitions are looked up in a
 * registry passed to each call; the notifications sent to observers are kept
 * in a ghost log.
 */
module Manager {
  import opened Wrappers
  import opened ScoreSystems
  import opened Definitions
  import opened Ratings
  import StringOrder

  type Inner = map<string, Rating>
  type Storage = map<string, Inner>

  /** The registry of rating definitions, keyed by definition id. */
  type Registry = map<string, RatingDefinition>

  /** The `ValueError`s raised by the manager, and the `KeyError` of a score lookup. */
  datatype Error =
    | NoDefinition(id: string)
    | InvalidValue(value: string, id: string)
    | MissingScore(value: string)

  datatype Event =
    | RatingAdded(id: string, user: string, rating: Rating)
    | RatingChanged(id: string, user: string, rating: Rating)
    | RatingRemoved(id: string, user: string)

  /** An event together with the storage an observer sees while it handles the event. */
  datatype Notification = Notification(event: Event, visible: Storage)

  /** No inner map is empty, and every rating is stored under its own id and user. */
  ghost predicate ValidStorage(s: Storage)
  {
    forall id | id in s ::
      |s[id]| > 0 &&
      forall u | u in s[id] :: s[id][u].id == id && s[id][u].user == u
  }

  /** The rating stored for `(id, user)`, if any. */
  function Slot(s: Storage, id: string, user: string): Option<Rating>
  {
    if id in s && user in s[id] then Some(s[id][user]) else None
  }

  /** `storage.get(id, {})`. */
  function Stored(s: Storage, id: string): Inner
  {
    if id in s then s[id] else map[]
  }

  /** The storage after `r` is put at `[id][user]`, creating the inner map when needed. */
  function Put(s: Storage, id: string, user: string, r: Rating): (t: Storage)
    ensures forall id', user' ::
      Slot(t, id', user') == (if id' == id && user' == user then Some(r) else Slot(s, id', user'))
    ensures t.Keys == s.Keys + {id}
    ensures ValidStorage(s) && r.id == id && r.user == user ==> ValidStorage(t)
  {
    s[id := Stored(s, id)[user := r]]
  }

  /** The storage after `[id][user]` is deleted, dropping the inner map once it is empty. */
  function Drop(s: Storage, id: string, user: string): (t: Storage)
    ensures forall id', user' ::
      Slot(t, id', user') == (if id' == id && user' == user then None else Slot(s, id', user'))
  {
    if id !in s then s
    else
      var inner := s[id] - {user};
      if |inner| == 0 then s - {id} else s[id := inner]
  }

  /** Deleting a slot keeps the storage invariant; the inner map goes exactly when `user` was its last key. */
  lemma DropKeepsValid(s: Storage, id: string, user: string)
    requires ValidStorage(s)
    ensures ValidStorage(Drop(s, id, user))
    ensures id in Drop(s, id, user) <==> id in s && s[id].Keys != {user}
  {
    if id in s {
      var inner := s[id] - {user};
      if |inner| == 0 {
        assert inner.Keys == {};
      } else {
        assert inner.Keys != {};
      }
    }
  }

  /** `_getDefinition`: the definition registered under `id`, or `ValueError`. */
  function GetDefinition(defs: Registry, id: string): (r: Result<RatingDefinition, Error>)
    ensures r.Success? <==> id in defs
    ensures r.Success? ==> r.value == defs[id]
    ensures r.Failure? ==> r.error == NoDefinition(id)
  {
    if id in defs then Success(defs[id]) else Failure(NoDefinition(id))
  }

  /** `dtMin <= t` when a lower bound is given, and `t <= dtMax` when an upper bound is. */
  predicate InWindow(t: Timestamp, dtMin: Option<int>, dtMax: Option<int>)
  {
    (dtMin.None? || dtMin.value <= t.instant) && (dtMax.None? || t.instant <= dtMax.value)
  }

  /** The users of the ratings, in order. */
  function Users(rs: seq<Rating>): (us: seq<string>)
    ensures |us| == |rs|
    ensures forall i :: 0 <= i < |rs| ==> us[i] == rs[i].user
  {
    seq(|rs|, i requires 0 <= i < |rs| => rs[i].user)
  }

  /** Ratings are in ascending order of their users (which are then distinct). */
  ghost predicate UserOrdered(rs: seq<Rating>)
  {
    StringOrder.Ascending(Users(rs))
  }

  /** Every rating of an inner map is stored under its own user. */
  ghost predicate KeyedByUser(inner: Inner)
  {
    forall u | u in inner :: inner[u].user == u
  }

  /** The ratings stored under the keys `ks`, in that order. */
  function InOrder(inner: Inner, ks: seq<string>): (rs: seq<Rating>)
    requires forall k :: k in ks ==> k in inner
    ensures |rs| == |ks|
    ensures forall i :: 0 <= i < |ks| ==> rs[i] == inner[ks[i]]
  {
    seq(|ks|, i requires 0 <= i < |ks| => inner[ks[i]])
  }

  lemma InOrderSorted(inner: Inner, ks: seq<string>)
    requires forall k :: k in ks ==> k in inner
    requires KeyedByUser(inner)
    requires StringOrder.Ascending(ks)
    ensures UserOrdered(InOrder(inner, ks))
  {
    assert Users(InOrder(inner, ks)) == ks;
  }

  lemma InOrderMembers(inner: Inner, ks: seq<string>)
    requires forall k :: k in ks <==> k in inner
    ensures forall x :: x in InOrder(inner, ks) <==> x in inner.Values
  {
    var rs := InOrder(inner, ks);
    forall x | x in inner.Values ensures x in rs {
      var u :| u in inner && inner[u] == x;
      var i :| 0 <= i < |ks| && ks[i] == u;
      assert rs[i] == x;
    }
  }

  /** `list(inner.values())`: the ratings in ascending user order, as the B-tree gives them. */
  function Values(inner: Inner): (rs: seq<Rating>)
    ensures |rs| == |inner|
    ensures forall x :: x in rs <==> x in inner.Values
    ensures KeyedByUser(inner) ==> UserOrdered(rs)
  {
    var ks := StringOrder.SortedKeys(inner.Keys);
    var rs := InOrder(inner, ks);
    InOrderMembers(inner, ks);
    assert KeyedByUser(inner) ==> UserOrdered(rs) by {
      if KeyedByUser(inner) {
        StringOrder.SortedKeysAscending(inner.Keys);
        InOrderSorted(inner, ks);
      }
    }
    rs
  }

  /** The time filter of `getRatings`: the ratings whose timestamp lies in the window, in their order. */
  function Filter(rs: seq<Rating>, dtMin: Option<int>, dtMax: Option<int>): (r: seq<Rating>)
    ensures forall x :: x in r <==> x in rs && InWindow(x.timestamp, dtMin, dtMax)
    ensures |r| <= |rs|
    ensures dtMin.None? && dtMax.None? ==> r == rs
  {
    if rs == [] then []
    else if InWindow(rs[0].timestamp, dtMin, dtMax) then [rs[0]] + Filter(rs[1..], dtMin, dtMax)
    else Filter(rs[1..], dtMin, dtMax)
  }

  /** A rating whose user precedes every user of an ordered list can go in front of it. */
  lemma ConsOrdered(x: Rating, rest: seq<Rating>)
    requires UserOrdered(rest)
    requires forall y :: y in rest ==> StringOrder.Cmp(x.user, y.user) < 0
    ensures UserOrdered([x] + rest)
  {
    forall u | u in Users(rest) ensures StringOrder.Cmp(x.user, u) < 0 {
      var i :| 0 <= i < |rest| && Users(rest)[i] == u;
      assert rest[i] in rest;
    }
    StringOrder.AscendingCons(x.user, Users(rest));
    assert Users([x] + rest) == [x.user] + Users(rest);
  }

  /** The tail of an ordered list is ordered, and its head's user precedes every user of the tail. */
  lemma OrderedTail(rs: seq<Rating>)
    requires rs != [] && UserOrdered(rs)
    ensures UserOrdered(rs[1..])
    ensures forall y :: y in rs[1..] ==> StringOrder.Cmp(rs[0].user, y.user) < 0
  {
    var us, tail := Users(rs), rs[1..];
    assert Users(tail) == us[1..];
    forall y | y in tail ensures StringOrder.Cmp(rs[0].user, y.user) < 0 {
      var k :| 0 <= k < |tail| && tail[k] == y;
      assert us[0] == rs[0].user && us[k + 1] == y.user;
    }
  }

  lemma {:induction false} FilterKeepsOrder(rs: seq<Rating>, dtMin: Option<int>, dtMax: Option<int>)
    requires UserOrdered(rs)
    ensures UserOrdered(Filter(rs, dtMin, dtMax))
  {
    if rs != [] {
      OrderedTail(rs);
      FilterKeepsOrder(rs[1..], dtMin, dtMax);
      if InWindow(rs[0].timestamp, dtMin, dtMax) {
        ConsOrdered(rs[0], Filter(rs[1..], dtMin, dtMax));
      }
    }
  }

  /** The number of ratings in `rs` whose value is `v`. */
  function CountValue(rs: seq<Rating>, v: string): nat
  {
    if rs == [] then 0
    else CountValue(rs[..|rs| - 1], v) + (if rs[|rs| - 1].value == v then 1 else 0)
  }

  /**
   * The sum of the weights of the ratings' values, left to right; the value of
   * the first rating whose value the score system does not know is the error
   * (`KeyError`).
   */
  function SumWeights(ss: ScoreSystem, rs: seq<Rating>): (r: Result<int, Error>)
    ensures r.Success? <==> forall x :: x in rs ==> IsValidScore(ss, x.value)
    ensures r.Failure? ==> r.error.MissingScore? && exists x :: x in rs && x.value == r.error.value && !IsValidScore(ss, x.value)
  {
    if rs == [] then Success(0)
    else
      match GetNumericalValue(ss, rs[0].value)
      case None => Failure(MissingScore(rs[0].value))
      case Some(w) =>
        match SumWeights(ss, rs[1..])
        case Failure(e) => Failure(e)
        case Success(t) => Success(w + t)
  }

  /** Every weight of the score system lies between `lo` and `hi`. */
  ghost predicate WeightsWithin(ss: ScoreSystem, lo: int, hi: int)
  {
    forall i :: 0 <= i < |ss.scores| ==> lo <= ss.scores[i].1 <= hi
  }

  lemma {:induction false} SumWeightsBounds(ss: ScoreSystem, rs: seq<Rating>, lo: int, hi: int)
    requires WeightsWithin(ss, lo, hi)
    requires SumWeights(ss, rs).Success?
    ensures |rs| * lo <= SumWeights(ss, rs).value <= |rs| * hi
  {
    if rs != [] {
      var v := rs[0].value;
      assert rs[0] in rs;
      assert IsValidScore(ss, v);
      var w := GetNumericalValue(ss, v).value;
      assert lo <= w <= hi by {
        var i :| 0 <= i < |ss.scores| && ss.scores[i].0 == v;
        var k := LastNamed(ss.scores, i, v);
        GetNumericalValueLastWins(ss, k, v);
      }
      var n := |rs| - 1;
      SumWeightsBounds(ss, rs[1..], lo, hi);
      var t := SumWeights(ss, rs[1..]).value;
      assert SumWeights(ss, rs).value == w + t;
      MulSucc(n, lo);
      MulSucc(n, hi);
    }
  }

  /** The position of the last pair named `v` at or after a position `i` that carries that name. */
  function LastNamed(scores: seq<Score>, i: int, v: string): (k: int)
    requires 0 <= i < |scores| && scores[i].0 == v
    ensures i <= k && IsLastNamed(scores, k, v)
    decreases |scores| - i
  {
    if exists j :: i < j < |scores| && scores[j].0 == v then
      var j :| i < j < |scores| && scores[j].0 == v;
      LastNamed(scores, j, v)
    else i
  }

  lemma MulSucc(n: int, x: int)
    ensures (n + 1) * x == n * x + x
  {
  }

  lemma {:induction false} MulMonotone(n: nat, a: int, b: int)
    ensures a <= b ==> n * a <= n * b
  {
    if n > 0 {
      MulMonotone(n - 1, a, b);
      MulSucc(n - 1, a);
      MulSucc(n - 1, b);
    }
  }

  /** Floor division of a sum lying between `n * lo` and `n * hi` by `n` stays between `lo` and `hi`. */
  lemma DivWithin(total: int, n: nat, lo: int, hi: int)
    requires n > 0 && n * lo <= total <= n * hi
    ensures lo <= total / n <= hi
  {
    var q := total / n;
    MulMonotone(n, q + 1, lo);
    MulMonotone(n, hi + 1, q);
    MulSucc(q, n);
    MulSucc(hi, n);
    assert n * q <= total < n * q + n;
  }

  /** `d.get(v, 0)`. */
  function Get0(d: map<string, nat>, v: string): nat
  {
    if v in d then d[v] else 0
  }

  /** The loop of `countScores` that fills `value_count`: how often each value occurs. */
  method Tally(ratings: seq<Rating>) returns (valueCount: map<string, nat>)
    ensures forall v :: Get0(valueCount, v) == CountValue(ratings, v)
  {
    valueCount := map[];
    var i := 0;
    while i < |ratings|
      invariant 0 <= i <= |ratings|
      invariant forall v :: Get0(valueCount, v) == CountValue(ratings[..i], v)
    {
      var v := ratings[i].value;
      if v !in valueCount {
        valueCount := valueCount[v := 0];
      }
      valueCount := valueCount[v := valueCount[v] + 1];
      assert ratings[..i + 1] == ratings[..i] + [ratings[i]];
      forall w ensures Get0(valueCount, w) == CountValue(ratings[..i + 1], w) {
        CountValueSnoc(ratings[..i], ratings[i], w);
      }
      i := i + 1;
    }
    assert ratings[..i] == ratings;
  }

  lemma CountValueSnoc(rs: seq<Rating>, x: Rating, v: string)
    ensures CountValue(rs + [x], v) == CountValue(rs, v) + (if x.value == v then 1 else 0)
  {
    assert (rs + [x])[..|rs|] == rs;
  }

  /** Score names listed at most once, as `value_count.get(name, 0)` reads them. */
  function SumCounts(names: seq<string>, rs: seq<Rating>): nat
  {
    if names == [] then 0 else CountValue(rs, names[0]) + SumCounts(names[1..], rs)
  }

  function Occurrences(names: seq<string>, v: string): nat
  {
    if names == [] then 0 else (if names[0] == v then 1 else 0) + Occurrences(names[1..], v)
  }

  lemma {:induction false} SumCountsSnoc(names: seq<string>, rs: seq<Rating>, x: Rating)
    ensures SumCounts(names, rs + [x]) == SumCounts(names, rs) + Occurrences(names, x.value)
  {
    assert (rs + [x])[..|rs + [x]| - 1] == rs;
    if names != [] {
      SumCountsSnoc(names[1..], rs, x);
    }
  }

  lemma {:induction false} OccurrencesOfDistinct(names: seq<string>, v: string)
    requires forall i, j :: 0 <= i < j < |names| ==> names[i] != names[j]
    requires v in names
    ensures Occurrences(names, v) == 1
  {
    if names[0] == v {
      OccurrencesAbsent(names[1..], v);
    } else {
      OccurrencesOfDistinct(names[1..], v);
    }
  }

  lemma {:induction false} OccurrencesAbsent(names: seq<string>, v: string)
    requires v !in names
    ensures Occurrences(names, v) == 0
  {
    if names != [] {
      OccurrencesAbsent(names[1..], v);
    }
  }

  /**
   * When the names are distinct and every rating's value is one of them, the
   * per-name counts add up to the number of ratings.
   */
  lemma {:induction false} HistogramAddsUp(names: seq<string>, rs: seq<Rating>)
    requires forall i, j :: 0 <= i < j < |names| ==> names[i] != names[j]
    requires forall x :: x in rs ==> x.value in names
    ensures SumCounts(names, rs) == |rs|
  {
    if rs == [] {
      SumCountsEmpty(names);
    } else {
      var front, x := rs[..|rs| - 1], rs[|rs| - 1];
      assert rs == front + [x];
      HistogramAddsUp(names, front);
      SumCountsSnoc(names, front, x);
      OccurrencesOfDistinct(names, x.value);
    }
  }

  lemma {:induction false} SumCountsEmpty(names: seq<string>)
    ensures SumCounts(names, []) == 0
  {
    if names != [] {
      SumCountsEmpty(names[1..]);
    }
  }

  /** The names of the pairs, in order. */
  function Names(scores: seq<Score>): (ns: seq<string>)
    ensures |ns| == |scores|
    ensures forall i :: 0 <= i < |scores| ==> ns[i] == scores[i].0
  {
    seq(|scores|, i requires 0 <= i < |scores| => scores[i].0)
  }

  class RatingsManager {
    var storage: Storage
    ghost var log: seq<Notification>

    ghost predicate Valid()
      reads this
    {
      ValidStorage(storage)
    }

    constructor ()
      ensures Valid()
      ensures storage == map[] && log == []
    {
      storage := map[];
      log := [];
    }

    /**
     * `rate`: validate, then add, replace or leave alone the rating of `user`
     * for `id`; `now` is the clock reading a new rating gets.
     */
    method Rate(defs: Registry, id: string, value: string, user: string, now: int) returns (r: Result<bool, Error>)
      requires Valid()
      modifies this
      ensures Valid()
      ensures r == Failure(NoDefinition(id)) <==> id !in defs
      ensures r == Failure(InvalidValue(value, id)) <==>
        id in defs && !IsValidScore(defs[id].scoreSystem, value)
      ensures r == Success(false) <==>
        id in defs && IsValidScore(defs[id].scoreSystem, value) &&
        Slot(old(storage), id, user).Some? && Slot(old(storage), id, user).value.value == value
      ensures r == Success(true) <==>
        id in defs && IsValidScore(defs[id].scoreSystem, value) &&
        !(Slot(old(storage), id, user).Some? && Slot(old(storage), id, user).value.value == value)
      ensures r != Success(true) ==> storage == old(storage) && log == old(log)
      ensures r == Success(true) ==>
        var rating := NewRating(id, value, user, now);
        var event := if Slot(old(storage), id, user).None? then RatingAdded(id, user, rating)
                     else RatingChanged(id, user, rating);
        storage == Put(old(storage), id, user, rating) &&
        log == old(log) + [Notification(event, storage)]
    {
      if id !in defs {
        return Failure(NoDefinition(id));
      }
      var defn := defs[id];
      if !IsValidScore(defn.scoreSystem, value) {
        return Failure(InvalidValue(value, id));
      }
      var inner := Stored(storage, id);
      var existing := if user in inner then Some(inner[user]) else None;
      if existing.Some? && existing.value.value == value {
        return Success(false);
      }
      var rating := NewRating(id, value, user, now);
      storage := Put(storage, id, user, rating);
      if existing.None? {
        log := log + [Notification(RatingAdded(id, user, rating), storage)];
      } else {
        log := log + [Notification(RatingChanged(id, user, rating), storage)];
      }
      return Success(true);
    }

    /**
     * `remove`: notify observers while the rating is still stored, then delete
     * it and drop the inner map once it is empty.
     */
    method Remove(defs: Registry, id: string, user: string) returns (r: Result<bool, Error>)
      requires Valid()
      modifies this
      ensures Valid()
      ensures r == Failure(NoDefinition(id)) <==> id !in defs
      ensures r == Success(false) <==> id in defs && Slot(old(storage), id, user).None?
      ensures r == Success(true) <==> id in defs && Slot(old(storage), id, user).Some?
      ensures r != Success(true) ==> storage == old(storage) && log == old(log)
      ensures r == Success(true) ==>
        storage == Drop(old(storage), id, user) &&
        log == old(log) + [Notification(RatingRemoved(id, user), old(storage))]
    {
      if id !in defs {
        return Failure(NoDefinition(id));
      }
      if id !in storage || user !in storage[id] {
        return Success(false);
      }
      log := log + [Notification(RatingRemoved(id, user), storage)];
      var inner := storage[id] - {user};
      if |inner| == 0 {
        storage := storage - {id};
      } else {
        storage := storage[id := inner];
      }
      return Success(true);
    }

    /** `getRatings`: the ratings stored under `id` whose timestamp lies in the window, in user order. */
    function GetRatings(defs: Registry, id: string, dtMin: Option<int>, dtMax: Option<int>): (r: Result<seq<Rating>, Error>)
      reads this
      ensures r.Failure? <==> id !in defs
      ensures r.Failure? ==> r.error == NoDefinition(id)
      ensures r.Success? ==> forall x :: x in r.value <==>
        x in Stored(storage, id).Values && InWindow(x.timestamp, dtMin, dtMax)
      ensures r.Success? && dtMin.None? && dtMax.None? ==> |r.value| == |Stored(storage, id)|
      ensures r.Success? && ValidStorage(storage) ==> UserOrdered(r.value)
    {
      if id !in defs then Failure(NoDefinition(id))
      else
        var all := Values(Stored(storage, id));
        assert ValidStorage(storage) ==> UserOrdered(Filter(all, dtMin, dtMax)) by {
          if ValidStorage(storage) {
            assert KeyedByUser(Stored(storage, id));
            FilterKeepsOrder(all, dtMin, dtMax);
          }
        }
        Success(Filter(all, dtMin, dtMax))
    }

    /** `getRating`: the rating of `user` for `id`, or `None` when there is none. */
    function GetRating(defs: Registry, id: string, user: string): (r: Result<Option<Rating>, Error>)
      reads this
      ensures r.Failure? <==> id !in defs
      ensures r.Failure? ==> r.error == NoDefinition(id)
      ensures r.Success? ==> (r.value.Some? <==> id in storage && user in storage[id])
      ensures r.Success? && r.value.Some? ==> r.value.value == storage[id][user]
    {
      if id !in defs then Failure(NoDefinition(id))
      else Success(Slot(storage, id, user))
    }

    /**
     * `computeAverage`: the floor of the mean weight of the ratings in the
     * window, or `-1` when there are none.
     */
    function ComputeAverage(defs: Registry, id: string, dtMin: Option<int>, dtMax: Option<int>): (r: Result<int, Error>)
      reads this
      ensures id !in defs ==> r == Failure(NoDefinition(id))
      ensures id in defs ==>
        var rs := GetRatings(defs, id, dtMin, dtMax).value;
        var total := SumWeights(defs[id].scoreSystem, rs);
        && (rs == [] ==> r == Success(-1))
        && (total.Failure? ==> r == Failure(total.error))
        && (rs != [] && total.Success? ==> r == Success(total.value / |rs|))
    {
      if id !in defs then Failure(NoDefinition(id))
      else
        var rs := GetRatings(defs, id, dtMin, dtMax).value;
        match SumWeights(defs[id].scoreSystem, rs)
        case Failure(e) => Failure(e)
        case Success(total) => if |rs| == 0 then Success(-1) else Success(total / |rs|)
    }

    /**
     * `countScores`: for each pair of the score system, in its order, the
     * number of stored ratings for `id` with that value. The time window is
     * accepted but not applied.
     */
    method CountScores(defs: Registry, id: string, dtMin: Option<int>, dtMax: Option<int>)
      returns (r: Result<seq<(Score, nat)>, Error>)
      ensures id !in defs ==> r == Failure(NoDefinition(id))
      ensures id in defs ==>
        var scores := defs[id].scoreSystem.scores;
        && r.Success?
        && |r.value| == |scores|
        && forall i :: 0 <= i < |scores| ==>
             r.value[i].0 == scores[i] &&
             r.value[i].1 == CountValue(Values(Stored(storage, id)), scores[i].0)
    {
      if id !in defs {
        return Failure(NoDefinition(id));
      }
      var scores := defs[id].scoreSystem.scores;
      var ratings := Values(Stored(storage, id));
      var valueCount := Tally(ratings);
      var counts := seq(|scores|, k requires 0 <= k < |scores| => (scores[k], Get0(valueCount, scores[k].0)));
      assert forall k :: 0 <= k < |scores| ==> counts[k].0 == scores[k] && counts[k].1 == CountValue(ratings, scores[k].0);
      return Success(counts);
    }

    /**
     * `countAmountRatings`: the number of stored ratings for `id`. It neither
     * looks up the definition nor applies the time window.
     */
    function CountAmountRatings(id: string, dtMin: Option<int>, dtMax: Option<int>): (n: nat)
      reads this
      ensures n == |Stored(storage, id)|
      ensures ValidStorage(storage) ==> (n == 0 <==> id !in storage)
    {
      |Values(Stored(storage, id))|
    }
  }

  /** `countAmountRatings` agrees with the length of an unbounded `getRatings`. */
  lemma CountAmountIsLengthOfGetRatings(m: RatingsManager, defs: Registry, id: string, dtMin: Option<int>, dtMax: Option<int>)
    requires id in defs
    ensures m.CountAmountRatings(id, dtMin, dtMax) == |m.GetRatings(defs, id, None, None).value|
  {
  }

  /** A non-empty window's average lies between the smallest and the largest weight. */
  lemma AverageWithinWeights(m: RatingsManager, defs: Registry, id: string, dtMin: Option<int>, dtMax: Option<int>, lo: int, hi: int)
    requires id in defs && WeightsWithin(defs[id].scoreSystem, lo, hi)
    requires m.GetRatings(defs, id, dtMin, dtMax).value != []
    requires m.ComputeAverage(defs, id, dtMin, dtMax).Success?
    ensures lo <= m.ComputeAverage(defs, id, dtMin, dtMax).value <= hi
  {
    var rs := m.GetRatings(defs, id, dtMin, dtMax).value;
    var ss := defs[id].scoreSystem;
    SumWeightsBounds(ss, rs, lo, hi);
    DivWithin(SumWeights(ss, rs).value, |rs|, lo, hi);
  }

  /** A window with no rating in it averages to exactly `-1`. */
  lemma AverageOfNothing(m: RatingsManager, defs: Registry, id: string, dtMin: Option<int>, dtMax: Option<int>)
    requires id in defs
    requires forall x :: x in Stored(m.storage, id).Values ==> !InWindow(x.timestamp, dtMin, dtMax)
    ensures m.ComputeAverage(defs, id, dtMin, dtMax) == Success(-1)
  {
  }

  /**
   * When every stored value for `id` is a name of its score system and the
   * names are distinct, the counts of `countScores` add up to `countAmountRatings`.
   * `SumCounts(Names(scores), ...)` adds up exactly the second components that
   * `CountScores` promises for its entries; `CountScoresAddUp` states the same
   * fact about a result of `CountScores` itself.
   */
  lemma NameCountsAddUp(m: RatingsManager, defs: Registry, id: string)
    requires id in defs
    requires DistinctNames(defs[id].scoreSystem.scores)
    requires forall x :: x in Stored(m.storage, id).Values ==> IsValidScore(defs[id].scoreSystem, x.value)
    ensures SumCounts(Names(defs[id].scoreSystem.scores), Values(Stored(m.storage, id))) == m.CountAmountRatings(id, None, None)
  {
    var scores := defs[id].scoreSystem.scores;
    var names := Names(scores);
    var rs := Values(Stored(m.storage, id));
    forall x | x in rs ensures x.value in names {
      var i :| 0 <= i < |scores| && scores[i].0 == x.value;
      assert names[i] == x.value;
    }
    HistogramAddsUp(names, rs);
  }

  /** The sum of the counts of a histogram. */
  function TotalCount(entries: seq<(Score, nat)>): nat
  {
    if entries == [] then 0 else entries[0].1 + TotalCount(entries[1..])
  }

  lemma {:induction false} TotalCountIsSumCounts(entries: seq<(Score, nat)>, names: seq<string>, rs: seq<Rating>)
    requires |entries| == |names|
    requires forall i :: 0 <= i < |names| ==> entries[i].1 == CountValue(rs, names[i])
    ensures TotalCount(entries) == SumCounts(names, rs)
  {
    if entries != [] {
      TotalCountIsSumCounts(entries[1..], names[1..], rs);
    }
  }

  /**
   * The histogram `CountScores` returns adds up to `countAmountRatings`, when
   * every stored value for `id` is a name of its score system and the names are distinct.
   */
  lemma CountScoresAddUp(m: RatingsManager, defs: Registry, id: string, entries: seq<(Score, nat)>)
    requires id in defs
    requires DistinctNames(defs[id].scoreSystem.scores)
    requires forall x :: x in Stored(m.storage, id).Values ==> IsValidScore(defs[id].scoreSystem, x.value)
    requires |entries| == |defs[id].scoreSystem.scores|
    requires forall i :: 0 <= i < |entries| ==>
      entries[i].0 == defs[id].scoreSystem.scores[i] &&
      entries[i].1 == CountValue(Values(Stored(m.storage, id)), defs[id].scoreSystem.scores[i].0)
    ensures TotalCount(entries) == m.CountAmountRatings(id, None, None)
  {
    var scores := defs[id].scoreSystem.scores;
    NameCountsAddUp(m, defs, id);
    TotalCountIsSumCounts(entries, Names(scores), Values(Stored(m.storage, id)));
  }
}
