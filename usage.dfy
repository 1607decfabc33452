/**
 * Sequences of manager calls, and what their contracts together promise:
 * re-rating with the same value is a no-op, a rating can be read back after
 * `rate`, and it is gone after `remove`.
 */
module Usage {
  import opened Wrappers
  import opened ScoreSystems
  import opened Definitions
  import opened Ratings
  import opened Manager

  /**
   * The second of two identical `rate` calls returns false, sends nothing and
   * keeps the first rating (and its timestamp): the final state is the one the
   * first call alone leaves.
   */
  method RateTwice(m: RatingsManager, defs: Registry, id: string, value: string, user: string, t1: int, t2: int)
    returns (first: Result<bool, Error>, second: Result<bool, Error>)
    requires m.Valid()
    modifies m
    ensures m.Valid()
    ensures first.Success? ==> second == Success(false)
    ensures first.Failure? ==> second == first
    ensures first.Success? ==> m.GetRating(defs, id, user) == Success(Slot(m.storage, id, user))
    ensures first == Success(true) ==> Slot(m.storage, id, user) == Some(NewRating(id, value, user, t1))
    ensures |m.log| == |old(m.log)| + (if first == Success(true) then 1 else 0)
    ensures first != Success(true) ==> m.storage == old(m.storage) && m.log == old(m.log)
    ensures first == Success(true) ==> m.storage == Put(old(m.storage), id, user, NewRating(id, value, user, t1))
    ensures first == Success(true) ==>
      var rating := NewRating(id, value, user, t1);
      var event := if Slot(old(m.storage), id, user).None? then RatingAdded(id, user, rating)
                   else RatingChanged(id, user, rating);
      m.log == old(m.log) + [Notification(event, m.storage)]
  {
    first := m.Rate(defs, id, value, user, t1);
    if first == Success(true) {
      assert Slot(m.storage, id, user) == Some(NewRating(id, value, user, t1));
    }
    ghost var afterFirst, logAfterFirst := m.storage, m.log;
    second := m.Rate(defs, id, value, user, t2);
    assert m.storage == afterFirst && m.log == logAfterFirst;
  }

  /** After a successful `rate`, `getRating` returns a rating with the value given. */
  method RateThenGet(m: RatingsManager, defs: Registry, id: string, value: string, user: string, now: int)
    returns (r: Result<bool, Error>, got: Result<Option<Rating>, Error>)
    requires m.Valid()
    modifies m
    ensures r.Success? ==>
      got.Success? && got.value.Some? && got.value.value.value == value &&
      got.value.value.id == id && got.value.value.user == user
  {
    r := m.Rate(defs, id, value, user, now);
    if r == Success(true) {
      assert Slot(m.storage, id, user) == Some(NewRating(id, value, user, now));
    }
    got := m.GetRating(defs, id, user);
  }

  /** After a successful `remove`, `getRating` returns `None`; no other slot changes. */
  method RemoveThenGet(m: RatingsManager, defs: Registry, id: string, user: string)
    returns (r: Result<bool, Error>, got: Result<Option<Rating>, Error>)
    requires m.Valid()
    modifies m
    ensures r.Success? ==> got == Success(None)
    ensures forall id', user' :: (id', user') != (id, user) ==> Slot(m.storage, id', user') == Slot(old(m.storage), id', user')
  {
    r := m.Remove(defs, id, user);
    got := m.GetRating(defs, id, user);
  }

  /** A definition "quality" rated bad, ok or good. */
  function Quality(): RatingDefinition
  {
    NewDefinition("Quality", ScoreSystem("Three steps", "", [("bad", 1), ("ok", 2), ("good", 3)]), None)
  }

  /** Alice rates good (an Added event, read back by `getRating`), then ok (a Changed event). */
  method AliceChangesHerMind() returns (m: RatingsManager, got: Result<Option<Rating>, Error>)
    ensures fresh(m) && m.Valid()
    ensures got == Success(Some(NewRating("quality", "good", "alice", 1)))
    ensures m.storage == map["quality" := map["alice" := NewRating("quality", "ok", "alice", 2)]]
    ensures |m.log| == 2 && m.log[0].event.RatingAdded? && m.log[1].event.RatingChanged?
  {
    var defs := map["quality" := Quality()];
    var ss := Quality().scoreSystem;
    assert IsValidScore(ss, "good") && IsValidScore(ss, "ok") by {
      assert ss.scores[1].0 == "ok" && ss.scores[2].0 == "good";
    }
    m := new RatingsManager();
    var r := m.Rate(defs, "quality", "good", "alice", 1);
    assert r == Success(true);
    assert m.storage == map["quality" := map["alice" := NewRating("quality", "good", "alice", 1)]];
    got := m.GetRating(defs, "quality", "alice");
    assert got == Success(Some(NewRating("quality", "good", "alice", 1)));
    r := m.Rate(defs, "quality", "ok", "alice", 2);
    assert r == Success(true);
    assert m.storage["quality"] == map["alice" := NewRating("quality", "ok", "alice", 2)];
  }

  /** Bob rates bad next to Alice's ok (an Added event). */
  method BobJoins(m: RatingsManager)
    requires m.Valid()
    requires m.storage == map["quality" := map["alice" := NewRating("quality", "ok", "alice", 2)]]
    modifies m
    ensures m.Valid()
    ensures m.storage == map["quality" := map["alice" := NewRating("quality", "ok", "alice", 2),
                                              "bob" := NewRating("quality", "bad", "bob", 3)]]
    ensures m.log == old(m.log) + [Notification(RatingAdded("quality", "bob", NewRating("quality", "bad", "bob", 3)), m.storage)]
  {
    var defs := map["quality" := Quality()];
    var ss := Quality().scoreSystem;
    assert IsValidScore(ss, "bad") by {
      assert ss.scores[0].0 == "bad";
    }
    var r := m.Rate(defs, "quality", "bad", "bob", 3);
    assert r == Success(true);
    assert m.storage["quality"] == map["alice" := NewRating("quality", "ok", "alice", 2), "bob" := NewRating("quality", "bad", "bob", 3)];
  }

  /** Alice rates good, then ok; Bob rates bad; Carol, who never rated, cannot be removed. */
  method Scenario() returns (m: RatingsManager, removed: Result<bool, Error>)
    ensures m.Valid()
    ensures removed == Success(false)
    ensures Slot(m.storage, "quality", "alice") == Some(NewRating("quality", "ok", "alice", 2))
    ensures Slot(m.storage, "quality", "bob") == Some(NewRating("quality", "bad", "bob", 3))
    ensures "quality" in m.storage && m.storage["quality"].Keys == {"alice", "bob"}
    ensures m.CountAmountRatings("quality", None, None) == 2
    ensures |m.log| == 3 && m.log[1].event.RatingChanged? && m.log[2].event.RatingAdded?
  {
    var defs := map["quality" := Quality()];
    var got;
    m, got := AliceChangesHerMind();
    BobJoins(m);
    ghost var before := m.storage;
    assert Slot(m.storage, "quality", "carol") == None;
    removed := m.Remove(defs, "quality", "carol");
    assert removed == Success(false);
    assert m.storage == before;
    assert |m.storage["quality"]| == 2 by {
      assert |m.storage["quality"].Keys| == |{"alice", "bob"}|;
    }
  }

  /** After `Scenario`, the histogram counts one "bad", one "ok" and no "good", in the score system's order. */
  method ScenarioCounts() returns (counts: Result<seq<(Score, nat)>, Error>)
    ensures counts == Success([(("bad", 1), 1), (("ok", 2), 1), (("good", 3), 0)])
  {
    var m, _ := Scenario();
    var defs := map["quality" := Quality()];
    counts := m.CountScores(defs, "quality", None, None);
    var rs := Values(m.storage["quality"]);
    CountsOfAliceAndBob(m.storage["quality"]);
    assert CountValue(rs, "bad") == 1 && CountValue(rs, "ok") == 1 && CountValue(rs, "good") == 0;
    assert |counts.value| == 3;
    assert counts.value[0] == (("bad", 1), 1);
    assert counts.value[1] == (("ok", 2), 1);
    assert counts.value[2] == (("good", 3), 0);
    assert counts.value == [(("bad", 1), 1), (("ok", 2), 1), (("good", 3), 0)];
  }

  /**
   * In the state `Scenario` ends in, the average is 1: weights 2 and 1 are
   * integers, so their mean is taken with floor division.
   */
  lemma AverageOfAliceAndBob(m: RatingsManager, defs: Registry)
    requires defs == map["quality" := Quality()]
    requires Slot(m.storage, "quality", "alice") == Some(NewRating("quality", "ok", "alice", 2))
    requires Slot(m.storage, "quality", "bob") == Some(NewRating("quality", "bad", "bob", 3))
    requires m.storage["quality"].Keys == {"alice", "bob"}
    ensures m.ComputeAverage(defs, "quality", None, None) == Success(1)
  {
    var rs := m.GetRatings(defs, "quality", None, None).value;
    TwoListed(m.storage["quality"]);
    assert rs == Values(m.storage["quality"]);
    QualitySum(rs);
    assert |rs| == 2;
  }

  /** An inner map holding exactly Alice's and Bob's ratings lists them in user order: Alice first. */
  lemma TwoListed(inner: Inner)
    requires inner.Keys == {"alice", "bob"}
    requires inner["alice"] == NewRating("quality", "ok", "alice", 2)
    requires inner["bob"] == NewRating("quality", "bad", "bob", 3)
    ensures Values(inner) == [NewRating("quality", "ok", "alice", 2), NewRating("quality", "bad", "bob", 3)]
  {
    var a, b := NewRating("quality", "ok", "alice", 2), NewRating("quality", "bad", "bob", 3);
    var rs := Values(inner);
    assert |inner| == 2 by {
      assert |inner.Keys| == |{"alice", "bob"}|;
    }
    assert a in inner.Values && b in inner.Values by {
      assert inner["alice"] == a && inner["bob"] == b;
    }
    assert KeyedByUser(inner);
    assert StringOrder.Cmp("bob", "alice") == 1;
    assert a in rs && b in rs;
    assert rs[0] == a;
  }

  /** Alice's "ok" and Bob's "bad" each occur once, and "good" not at all. */
  lemma CountsOfAliceAndBob(inner: Inner)
    requires inner.Keys == {"alice", "bob"}
    requires inner["alice"] == NewRating("quality", "ok", "alice", 2)
    requires inner["bob"] == NewRating("quality", "bad", "bob", 3)
    ensures CountValue(Values(inner), "bad") == 1
    ensures CountValue(Values(inner), "ok") == 1
    ensures CountValue(Values(inner), "good") == 0
  {
    TwoListed(inner);
    var a, b := inner["alice"], inner["bob"];
    CountValueOfTwo(a, b, "bad");
    CountValueOfTwo(a, b, "ok");
    CountValueOfTwo(a, b, "good");
  }

  lemma CountValueOfTwo(x: Rating, y: Rating, v: string)
    ensures CountValue([x, y], v) == (if x.value == v then 1 else 0) + (if y.value == v then 1 else 0)
  {
    var xy := [x, y];
    assert xy[..|xy| - 1] == [x];
    assert [x][..0] == [];
    assert CountValue([x], v) == CountValue([], v) + (if x.value == v then 1 else 0);
  }

  /** The weights of "ok" and "bad" add up to 3. */
  lemma QualitySum(rs: seq<Rating>)
    requires rs == [NewRating("quality", "ok", "alice", 2), NewRating("quality", "bad", "bob", 3)]
    ensures SumWeights(Quality().scoreSystem, rs) == Success(3)
  {
    var ss := Quality().scoreSystem;
    assert DistinctNames(ss.scores);
    GetNumericalValueOfPair(ss, 0);
    GetNumericalValueOfPair(ss, 1);
    SumOfTwo(ss, rs[0], rs[1], 2, 1);
    assert rs == [rs[0], rs[1]];
  }

  lemma SumOfTwo(ss: ScoreSystem, x: Rating, y: Rating, wx: int, wy: int)
    requires GetNumericalValue(ss, x.value) == Some(wx) && GetNumericalValue(ss, y.value) == Some(wy)
    ensures SumWeights(ss, [x, y]) == Success(wx + wy)
  {
    assert [x, y][1..] == [y] && [y][1..] == [];
    assert SumWeights(ss, [y]) == Success(wy);
  }
}
