/**
 * `Rating`: one user's score for one definition. All four attributes are
 * read-only; the timestamp is the clock reading taken at construction.
 */
module Ratings {
  import StringOrder

  /** A point in time, and whether it carries a time zone (naive timestamps do not). */
  datatype Timestamp = Timestamp(instant: int, hasTz: bool)

  datatype Rating = Rating(id: string, value: string, user: string, timestamp: Timestamp)

  /** `Rating(id, value, user)` with the clock reading `now`, taken as UTC. */
  function NewRating(id: string, value: string, user: string, now: int): (r: Rating)
    ensures r.id == id && r.value == value && r.user == user
    ensures r.timestamp.instant == now && r.timestamp.hasTz
  {
    Rating(id, value, user, Timestamp(now, true))
  }

  /** The three fields that `__cmp__` looks at agree. */
  predicate SameKey(a: Rating, b: Rating)
  {
    a.id == b.id && a.value == b.value && a.user == b.user
  }

  /** `__cmp__` between two ratings: the tuples `(id, value, user)` compared lexicographically. */
  function Compare(a: Rating, b: Rating): (c: int)
    ensures -1 <= c <= 1
    ensures c == 0 <==> SameKey(a, b)
  {
    var c := StringOrder.Cmp(a.id, b.id);
    if c != 0 then c
    else
      var c := StringOrder.Cmp(a.value, b.value);
      if c != 0 then c else StringOrder.Cmp(a.user, b.user)
  }

  /**
   * The first field that differs decides; the timestamp never does. This unfolds
   * the definition of `Compare`, using that `Cmp` is 0 exactly on equal strings.
   */
  lemma CompareIsLexicographic(a: Rating, b: Rating)
    ensures a.id != b.id ==> Compare(a, b) == StringOrder.Cmp(a.id, b.id)
    ensures a.id == b.id && a.value != b.value ==> Compare(a, b) == StringOrder.Cmp(a.value, b.value)
    ensures a.id == b.id && a.value == b.value ==> Compare(a, b) == StringOrder.Cmp(a.user, b.user)
  {
  }

  /** Two ratings with the same `(id, value, user)` compare equal, whatever their timestamps. */
  lemma CompareIgnoresTimestamp(a: Rating, b: Rating, t: Timestamp)
    ensures Compare(a.(timestamp := t), b) == Compare(a, b)
    ensures SameKey(a, b) ==> Compare(a, b) == 0
  {
  }

  lemma CompareAntisymmetric(a: Rating, b: Rating)
    ensures Compare(a, b) == -Compare(b, a)
    ensures Compare(a, a) == 0
  {
    StringOrder.CmpAntisymmetric(a.id, b.id);
    StringOrder.CmpAntisymmetric(a.value, b.value);
    StringOrder.CmpAntisymmetric(a.user, b.user);
  }

  lemma CompareTransitive(a: Rating, b: Rating, c: Rating)
    requires Compare(a, b) < 0 && Compare(b, c) < 0
    ensures Compare(a, c) < 0
  {
    if a.id != b.id && b.id != c.id {
      StringOrder.CmpTransitive(a.id, b.id, c.id);
    } else if a.id == b.id && b.id == c.id {
      if a.value != b.value && b.value != c.value {
        StringOrder.CmpTransitive(a.value, b.value, c.value);
      } else if a.value == b.value && b.value == c.value {
        StringOrder.CmpTransitive(a.user, b.user, c.user);
      }
    }
  }
}
