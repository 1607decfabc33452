/**
 * `SimpleScoreSystem`: an ordered list of `(name, weight)` pairs. Validation
 * and lookup go through `dict(scores)`, so a name given twice takes the weight
 * of its last pair. Weights are integers here.
 */
module ScoreSystems {
  import opened Wrappers

  type Score = (string, int)

  /** The constructor stores its three arguments unchanged; a datatype value never changes afterwards. */
  datatype ScoreSystem = ScoreSystem(title: string, description: string, scores: seq<Score>)

  /** `i` is the position of the last pair named `v`. */
  ghost predicate IsLastNamed(scores: seq<Score>, i: int, v: string)
  {
    0 <= i < |scores| && scores[i].0 == v &&
    forall j :: i < j < |scores| ==> scores[j].0 != v
  }

  /** `dict(scores)`: pairs are entered left to right, a later one overwriting an earlier one. */
  function AsDict(scores: seq<Score>): (d: map<string, int>)
    ensures forall v :: v in d <==> exists i :: 0 <= i < |scores| && scores[i].0 == v
  {
    if scores == [] then map[]
    else
      var last := scores[|scores| - 1];
      var d := AsDict(scores[..|scores| - 1]);
      assert forall i :: 0 <= i < |scores| - 1 ==> scores[..|scores| - 1][i] == scores[i];
      d[last.0 := last.1]
  }

  /** `isValidScore`: some pair carries the name `v`. */
  predicate IsValidScore(ss: ScoreSystem, v: string)
    ensures IsValidScore(ss, v) <==> exists i :: 0 <= i < |ss.scores| && ss.scores[i].0 == v
  {
    v in AsDict(ss.scores)
  }

  /** `getNumericalValue`: the weight of `v`, or `None` where Python raises `KeyError`. */
  function GetNumericalValue(ss: ScoreSystem, v: string): (w: Option<int>)
    ensures w.Some? <==> IsValidScore(ss, v)
  {
    var d := AsDict(ss.scores);
    if v in d then Some(d[v]) else None
  }

  lemma {:induction false} AsDictLastWins(scores: seq<Score>, i: int, v: string)
    requires IsLastNamed(scores, i, v)
    ensures v in AsDict(scores) && AsDict(scores)[v] == scores[i].1
  {
    var n := |scores|;
    if i < n - 1 {
      var prefix := scores[..n - 1];
      assert IsLastNamed(prefix, i, v) by {
        forall j | i < j < |prefix| ensures prefix[j].0 != v {
          assert prefix[j] == scores[j];
        }
      }
      AsDictLastWins(prefix, i, v);
    }
  }

  /** With duplicate names, the weight is that of the last pair with the name. */
  lemma GetNumericalValueLastWins(ss: ScoreSystem, i: int, v: string)
    requires IsLastNamed(ss.scores, i, v)
    ensures GetNumericalValue(ss, v) == Some(ss.scores[i].1)
  {
    AsDictLastWins(ss.scores, i, v);
  }

  /** Names appear at most once, as the score systems in use are built. */
  ghost predicate DistinctNames(scores: seq<Score>)
  {
    forall i, j :: 0 <= i < j < |scores| ==> scores[i].0 != scores[j].0
  }

  /** With distinct names every pair's weight is the one looked up by its name. */
  lemma GetNumericalValueOfPair(ss: ScoreSystem, i: int)
    requires DistinctNames(ss.scores)
    requires 0 <= i < |ss.scores|
    ensures GetNumericalValue(ss, ss.scores[i].0) == Some(ss.scores[i].1)
  {
    AsDictLastWins(ss.scores, i, ss.scores[i].0);
  }
}
