/** `RatingDefinition`: a title, a score system and an optional description. */
module Definitions {
  import opened Wrappers
  import opened ScoreSystems

  datatype RatingDefinition = RatingDefinition(title: string, scoreSystem: ScoreSystem, description: Option<string>)

  /** The description field's schema default: the field is not required and has no default value. */
  const DescriptionDefault: Option<string> := None

  /**
   * `RatingDefinition(title, scoreSystem, description=None)`: the description is
   * assigned only when one is given, otherwise the field keeps its default.
   */
  function NewDefinition(title: string, scoreSystem: ScoreSystem, description: Option<string>): (d: RatingDefinition)
    ensures d.title == title && d.scoreSystem == scoreSystem
    ensures description.Some? ==> d.description == description
    ensures description.None? ==> d.description == DescriptionDefault
  {
    var d := RatingDefinition(title, scoreSystem, DescriptionDefault);
    if description.Some? then d.(description := description) else d
  }
}
