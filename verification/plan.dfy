/** The data shapes of recipe_adapter.py: the Planner's structured output and its parts. */
module Plan {

  /** One ingredient replacement (`Substitution`). */
  datatype Substitution = Substitution(originalIngredient: string, substitute: string, reason: string)

  /** A substitution whose three fields are all non-empty. */
  predicate WellFormedSubstitution(s: Substitution) {
    s.originalIngredient != [] && s.substitute != [] && s.reason != []
  }

  /**
   * A loosely typed value inside a conversion entry: a number, a string,
   * or Python's `None`.
   */
  datatype Value = Num(number: real) | Str(text: string) | Null

  /** A conversion entry: an untyped mapping from key names to values. */
  type Entry = map<string, Value>

  /**
   * The `conversion_list` field, typed `List[Any]`: either a list of entries
   * or something that is not a list at all.
   */
  datatype ConversionList = Listed(entries: seq<Entry>) | NotAList

  /** The Planner's structured result (`PlanningResult`), the session memory of one run. */
  datatype PlanningResult = PlanningResult(conversionList: ConversionList, substitutionMap: seq<Substitution>)

  /** The output schemas an agent can be asked to follow; the program has exactly one. */
  datatype Schema = PlanningResultSchema

  const AmountKey: string := "amount"
  const UnitKey: string := "unit"
  const ToUnitKey: string := "to_unit"

  /** The fixed plan the mock client returns (`PlanningResult.mock_data`). */
  function MockData(): (p: PlanningResult)
    ensures |p.substitutionMap| == 2
    ensures forall i :: 0 <= i < |p.substitutionMap| ==> WellFormedSubstitution(p.substitutionMap[i])
    ensures p.conversionList.Listed? && |p.conversionList.entries| == 1
    ensures p.conversionList.entries[0].Keys == {AmountKey, UnitKey, ToUnitKey}
  {
    PlanningResult(
      Listed([map[AmountKey := Num(2.0), UnitKey := Str("cups"), ToUnitKey := Str("grams")]]),
      [ Substitution("Beef chuck", "Firm Tofu", "Vegetarian protein swap."),
        Substitution("Sour cream", "Full-fat Coconut Milk", "Dairy-free creamy base.") ])
  }
}
