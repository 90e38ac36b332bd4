/** The configuration both generators share: the hard-coded list of Brazilian federative units,
    their approximate populations, and the 180-day span. Both generators of download_data.py
    carry an identical copy of the list of 27 state codes and of the population dictionary; the
    model defines them once. */
module Config {

  /** Number of generated days (`periods=180`); a day is known only by its index 0..179. */
  const Days: nat := 180

  /** The 27 state codes in the order both generators visit them. */
  const States: seq<string> := [
    "SP", "RJ", "MG", "BA", "PR", "RS", "PE", "CE", "PA", "SC",
    "GO", "MA", "ES", "PB", "AM", "RN", "MT", "AL", "PI", "DF",
    "MS", "SE", "RO", "TO", "AC", "AP", "RR"
  ]

  const StateCount: nat := 27

  const PopulationTable: map<string, nat> := map[
    "SP" := 46649132, "RJ" := 17463349, "MG" := 21411923, "BA" := 14985284,
    "PR" := 11597484, "RS" := 11466630, "PE" := 9674793, "CE" := 9240580,
    "PA" := 8777124, "SC" := 7338473, "GO" := 7206589, "MA" := 7153262,
    "ES" := 4108508, "PB" := 4059905, "AM" := 4269995, "RN" := 3560903,
    "MT" := 3567234, "AL" := 3365351, "PI" := 3289290, "DF" := 3094325,
    "MS" := 2839188, "SE" := 2338474, "RO" := 1815278, "TO" := 1607363,
    "AC" := 906876, "AP" := 877613, "RR" := 652713
  ]

  /** The default of `populacao_estados.get(estado, 3000000)`. */
  const FallbackPopulation: nat := 3000000

  /** `populacao_estados.get(estado, 3000000)`. Every result, the fallback included, is at
      least 10, so the `randint` range of the case generator is never empty. */
  function PopulationOf(state: string): (pop: nat)
    ensures pop >= 10
  {
    if state in PopulationTable then PopulationTable[state] else FallbackPopulation
  }

  /** A listed state gets its tabled population, never the 3,000,000 fallback (no tabled
      population equals it); any other code gets the fallback. */
  lemma PopulationOfListed(state: string)
    ensures state in States ==>
      state in PopulationTable && PopulationOf(state) == PopulationTable[state] != FallbackPopulation
    ensures state !in States ==> PopulationOf(state) == FallbackPopulation
  {
    StatesCovered();
    if state in States {
      var i :| 0 <= i < |States| && States[i] == state;
      TableAvoidsFallback(i);
    }
  }

  /** No listed state's tabled population equals the fallback value. */
  lemma TableAvoidsFallback(i: nat)
    requires i < |States|
    ensures States[i] in PopulationTable && PopulationTable[States[i]] != FallbackPopulation
  {
  }

  /** The list holds 27 distinct codes, each of which has a population entry, and the table
      has no other entries: the 3,000,000 fallback is never taken by either generator. */
  lemma StatesCovered()
    ensures |States| == StateCount
    ensures forall i, j :: 0 <= i < j < |States| ==> States[i] != States[j]
    ensures forall i :: 0 <= i < |States| ==> States[i] in PopulationTable
    ensures forall s :: s in PopulationTable <==> s in States
    ensures forall i :: 0 <= i < |States| ==> PopulationOf(States[i]) == PopulationTable[States[i]]
    ensures forall i :: 0 <= i < |States| ==> PopulationOf(States[i]) >= 10
  {
  }
}
