/**
 * The generation-1 migration of one manager's storage: every rating whose
 * timestamp is naive gets UTC attached, in place. Finding the managers of all
 * ratable objects in the database is not part of this model.
 */
module Evolve1 {
  import opened Ratings
  import opened Manager

  /** `replace(tzinfo=UTC)` on a naive timestamp: the same instant, now time-zone aware. */
  function AttachUtc(t: Timestamp): Timestamp
  {
    Timestamp(t.instant, true)
  }

  /** A rating as the pass leaves it: a naive timestamp gains UTC, an aware one is untouched. */
  function Normalized(r: Rating): Rating
  {
    if r.timestamp.hasTz then r else r.(timestamp := AttachUtc(r.timestamp))
  }

  function NormalizedInner(inner: Inner): Inner
  {
    map u | u in inner :: Normalized(inner[u])
  }

  function NormalizedStorage(s: Storage): Storage
  {
    map id | id in s :: NormalizedInner(s[id])
  }

  /**
   * After the pass every timestamp is aware, keeps its instant, and an aware
   * one is unchanged; keys and each rating's id, value and user stay as they were.
   */
  lemma NormalizedFacts(s: Storage)
    ensures NormalizedStorage(s).Keys == s.Keys
    ensures forall id | id in s :: NormalizedStorage(s)[id].Keys == s[id].Keys
    ensures forall id, u | id in s && u in s[id] ::
      var r, n := s[id][u], NormalizedStorage(s)[id][u];
      && n.timestamp.hasTz
      && n.timestamp.instant == r.timestamp.instant
      && (r.timestamp.hasTz ==> n == r)
      && SameKey(n, r)
  {
  }

  /** The pass keeps the storage invariant. */
  lemma NormalizedKeepsValid(s: Storage)
    requires ValidStorage(s)
    ensures ValidStorage(NormalizedStorage(s))
  {
    NormalizedFacts(s);
  }

  /** Running the pass twice gives the same storage as running it once. */
  lemma NormalizedIdempotent(s: Storage)
    ensures NormalizedStorage(NormalizedStorage(s)) == NormalizedStorage(s)
  {
    var t := NormalizedStorage(s);
    forall id | id in t ensures NormalizedInner(t[id]) == t[id] {
      assert NormalizedInner(t[id]).Keys == t[id].Keys;
    }
  }

  /** The inner loop of `evolve`: the ratings of one definition, one user at a time. */
  method NormalizeInner(inner: Inner) returns (out: Inner)
    ensures out == NormalizedInner(inner)
  {
    out := inner;
    var todo := inner.Keys;
    while todo != {}
      invariant todo <= inner.Keys
      invariant out.Keys == inner.Keys
      invariant forall u | u in inner :: out[u] == if u in todo then inner[u] else Normalized(inner[u])
      decreases todo
    {
      var u :| u in todo;
      var rating := out[u];
      if !rating.timestamp.hasTz {
        out := out[u := rating.(timestamp := AttachUtc(rating.timestamp))];
      }
      todo := todo - {u};
    }
  }

  /** The pass over one manager: every inner map in turn. Notifications are not sent. */
  method Evolve(m: RatingsManager)
    requires m.Valid()
    modifies m
    ensures m.Valid()
    ensures m.storage == NormalizedStorage(old(m.storage))
    ensures m.log == old(m.log)
  {
    ghost var s0 := m.storage;
    var todo := m.storage.Keys;
    while todo != {}
      invariant todo <= s0.Keys
      invariant m.storage.Keys == s0.Keys
      invariant forall id | id in todo :: m.storage[id] == s0[id]
      invariant forall id | id in s0 && id !in todo :: m.storage[id] == NormalizedInner(s0[id])
      invariant m.log == old(m.log)
      decreases todo
    {
      var id :| id in todo;
      var inner := NormalizeInner(m.storage[id]);
      m.storage := m.storage[id := inner];
      todo := todo - {id};
    }
    assert m.storage == NormalizedStorage(s0);
    NormalizedKeepsValid(s0);
  }
}
