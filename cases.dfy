/** The demonstration case/death synthesizer (`criar_dataset_demonstracao_covid`).
    For every state it draws a base cumulative case count, then for each of 180 days draws a
    new-case count and two death fractions. The random draws are inputs here: a `StateDraws`
    value per state holds the base draw and the per-day draws, and the ranges numpy guarantees
    for them are preconditions. The cumulative formula `base + new * (i + 1)` is kept as written:
    it scales one day's draw by the day index rather than summing the days. */
module Cases {
  import opened Arith
  import opened Config

  datatype Option<T> = None | Some(value: T)

  /** One row of the case table. `day` is the index of the date in the 180-day range. */
  datatype CaseRecord = CaseRecord(
    day: nat,
    state: string,
    municipality: Option<string>,  // municipio, always None
    casesCumulative: int,          // casos_acumulados
    deathsCumulative: int,         // obitos_acumulados
    newCases: int,                 // casos_novos
    newDeaths: int,                // obitos_novos
    population: nat)               // populacao_estimada

  /** The three draws of one day: the normal sample for new cases, the uniform fraction for
      new deaths, and the uniform fraction for cumulative deaths. */
  datatype DayDraws = DayDraws(newCasesSample: real, newDeathsFraction: real, cumulativeDeathsFraction: real)

  /** The draws of one state: the `randint` base count and one `DayDraws` per day. */
  datatype StateDraws = StateDraws(baseCases: int, days: seq<DayDraws>)

  /** `int(pop * 0.15)`, the inclusive lower bound of the base draw: 15% of pop rounded down. */
  function BaseCasesLow(pop: nat): (low: nat)
    ensures 100 * low <= 15 * pop < 100 * low + 100
  {
    pop * 15 / 100
  }

  /** `int(pop * 0.25)`, the exclusive upper bound of the base draw: 25% of pop rounded down. */
  function BaseCasesHigh(pop: nat): (high: nat)
    ensures 100 * high <= 25 * pop < 100 * high + 100
  {
    pop * 25 / 100
  }

  /** `np.random.uniform(0.01, 0.02)` and `np.random.uniform(0.015, 0.025)` fall in these
      half-open ranges; the normal sample may be any real. */
  predicate ValidDayDraws(draw: DayDraws)
  {
    1.0 / 100.0 <= draw.newDeathsFraction < 2.0 / 100.0
    && 15.0 / 1000.0 <= draw.cumulativeDeathsFraction < 25.0 / 1000.0
  }

  /** `np.random.randint(low, high)` falls in [low, high), and there is one day draw per day. */
  predicate ValidStateDraws(pop: nat, draws: StateDraws)
  {
    BaseCasesLow(pop) <= draws.baseCases < BaseCasesHigh(pop)
    && |draws.days| == Days
    && forall i :: 0 <= i < |draws.days| ==> ValidDayDraws(draws.days[i])
  }

  /** One draw per listed state, each valid for that state's population. */
  predicate ValidDraws(states: seq<string>, draws: seq<StateDraws>)
  {
    |draws| == |states|
    && forall s :: 0 <= s < |states| ==> ValidStateDraws(PopulationOf(states[s]), draws[s])
  }

  /** `max(0, int(np.random.normal(...)))`: the day's new cases from its normal sample. */
  function NewCases(sample: real): (n: int)
    ensures n >= 0
    ensures sample < 1.0 ==> n == 0
    ensures sample >= 1.0 ==> n as real <= sample < n as real + 1.0
  {
    ClampNonNegative(TruncateTowardZero(sample))
  }

  /** `casos_base + casos_novos * (i + 1)`, kept as written: one day's new cases scaled by the
      day number, not a running sum over the days. With non-negative new cases it lies between
      the base and base + new * 180 on every generated day. */
  function CumulativeCases(baseCases: int, newCases: int, day: nat): (cumulative: int)
    ensures newCases >= 0 ==> baseCases <= cumulative
    ensures newCases >= 0 && day < Days ==> cumulative <= baseCases + newCases * Days
  {
    assert newCases >= 0 && day < Days ==> newCases * (day + 1) <= newCases * Days by {
      if newCases >= 0 && day < Days {
        MulMonotone(day + 1, Days, newCases);
      }
    }
    baseCases + newCases * (day + 1)
  }

  /** `max(0, int(casos_novos * np.random.uniform(0.01, 0.02)))`, never negative whatever the
      fraction. */
  function NewDeaths(newCases: int, fraction: real): (deaths: int)
    ensures deaths >= 0
  {
    ClampNonNegative(TruncateTowardZero(newCases as real * fraction))
  }

  /** `int(casos_acumulados * np.random.uniform(0.015, 0.025))`. */
  function CumulativeDeaths(casesCumulative: int, fraction: real): int
  {
    TruncateTowardZero(casesCumulative as real * fraction)
  }

  /** The record of day `day` of a state, given that day's draws. */
  function CaseRecordAt(state: string, pop: nat, baseCases: int, draw: DayDraws, day: nat): CaseRecord
  {
    var newCases := NewCases(draw.newCasesSample);
    var casesCumulative := CumulativeCases(baseCases, newCases, day);
    CaseRecord(day, state, None, casesCumulative,
               CumulativeDeaths(casesCumulative, draw.cumulativeDeathsFraction),
               newCases, NewDeaths(newCases, draw.newDeathsFraction), pop)
  }

  /** The records of one state, in day order. */
  function StateCases(state: string, draws: StateDraws): seq<CaseRecord>
  {
    seq(|draws.days|, i requires 0 <= i < |draws.days| =>
      CaseRecordAt(state, PopulationOf(state), draws.baseCases, draws.days[i], i))
  }

  /** The blocks of `states`, concatenated in state order. */
  function CaseTable(states: seq<string>, draws: seq<StateDraws>): seq<CaseRecord>
    requires |draws| == |states|
  {
    if states == [] then []
    else CaseTable(states[..|states| - 1], draws[..|states| - 1])
         + StateCases(states[|states| - 1], draws[|states| - 1])
  }

  /** The day loop of one state. */
  method GenerateStateCases(state: string, draws: StateDraws) returns (records: seq<CaseRecord>)
    requires |draws.days| == Days
    ensures records == StateCases(state, draws)
  {
    var pop := PopulationOf(state);
    var baseCases := draws.baseCases;
    records := [];
    for i := 0 to Days
      invariant |records| == i
      invariant forall k :: 0 <= k < i ==> records[k] == CaseRecordAt(state, pop, baseCases, draws.days[k], k)
    {
      var draw := draws.days[i];
      var newCases := NewCases(draw.newCasesSample);
      var casesCumulative := CumulativeCases(baseCases, newCases, i);
      var newDeaths := NewDeaths(newCases, draw.newDeathsFraction);
      var deathsCumulative := CumulativeDeaths(casesCumulative, draw.cumulativeDeathsFraction);
      records := records + [CaseRecord(i, state, None, casesCumulative, deathsCumulative, newCases, newDeaths, pop)];
    }
  }

  /** `criar_dataset_demonstracao_covid` with its random draws supplied: one per state, with
      one day draw per day. */
  method GenerateCases(draws: seq<StateDraws>) returns (records: seq<CaseRecord>)
    requires |draws| == |States| && forall s :: 0 <= s < |draws| ==> |draws[s].days| == Days
    ensures records == CaseTable(States, draws)
  {
    records := [];
    for s := 0 to |States|
      invariant records == CaseTable(States[..s], draws[..s])
    {
      var block := GenerateStateCases(States[s], draws[s]);
      assert States[..s + 1][..s] == States[..s];
      assert draws[..s + 1][..s] == draws[..s];
      records := records + block;
    }
    assert States[..|States|] == States;
    assert draws[..|States|] == draws;
  }

  // ---------------------------------------------------------------------------------------------
  // Properties

  /** Every state's base range is non-empty, so valid draws exist for each listed state. */
  lemma BaseRangeNonEmpty(pop: nat)
    requires pop >= 10
    ensures BaseCasesLow(pop) < BaseCasesHigh(pop)
  {
  }

  /** The smallest draws of a state: the base at its lower bound, every normal sample 0 and
      every fraction at the lower end of its range. */
  function LowestDraws(pop: nat): StateDraws
  {
    StateDraws(BaseCasesLow(pop), seq(Days, i => DayDraws(0.0, 1.0 / 100.0, 15.0 / 1000.0)))
  }

  /** Valid draws exist for every listed state, so the generator's precondition can be met. */
  lemma ValidDrawsExist()
    ensures ValidDraws(States, seq(|States|, s requires 0 <= s < |States| => LowestDraws(PopulationOf(States[s]))))
  {
    StatesCovered();
    forall s | 0 <= s < |States|
      ensures ValidStateDraws(PopulationOf(States[s]), LowestDraws(PopulationOf(States[s])))
    {
      BaseRangeNonEmpty(PopulationOf(States[s]));
    }
  }

  /** With a fraction drawn from [0.01, 0.02), new deaths are never negative and lie between
      1% and 2% of the new cases, rounded down. */
  lemma NewDeathsBounds(newCases: nat, fraction: real)
    requires 1.0 / 100.0 <= fraction < 2.0 / 100.0
    ensures var d := NewDeaths(newCases, fraction);
      0 <= d && 50 * d <= newCases < 100 * d + 100
  {
    NewDeathsAtMost(newCases, fraction);
    NewDeathsAtLeast(newCases, fraction);
  }

  lemma NewDeathsAtMost(newCases: nat, fraction: real)
    requires 1.0 / 100.0 <= fraction < 2.0 / 100.0
    ensures var d := NewDeaths(newCases, fraction);
      0 <= d && 50 * d <= newCases
  {
    NewDeathsUpperShare(newCases, fraction);
    TruncatedUpper(newCases as real * fraction, newCases);
  }

  lemma NewDeathsAtLeast(newCases: nat, fraction: real)
    requires 1.0 / 100.0 <= fraction < 2.0 / 100.0
    ensures newCases < 100 * NewDeaths(newCases, fraction) + 100
  {
    NewDeathsLowerShare(newCases, fraction);
    TruncatedLower(newCases as real * fraction, newCases);
  }

  /** x is a non-negative share of n of at most 1/50 of it. */
  predicate WithinFiftieth(x: real, n: nat)
  {
    0.0 <= x && 50.0 * x <= n as real
  }

  /** x is a non-negative share of n of at least 1/100 of it. */
  predicate AtLeastHundredth(x: real, n: nat)
  {
    0.0 <= x && n as real <= 100.0 * x
  }

  lemma NewDeathsUpperShare(newCases: nat, fraction: real)
    requires 1.0 / 100.0 <= fraction < 2.0 / 100.0
    ensures WithinFiftieth(newCases as real * fraction, newCases)
  {
    ScaleShare(newCases as real, fraction, 100.0, 50.0);
  }

  lemma NewDeathsLowerShare(newCases: nat, fraction: real)
    requires 1.0 / 100.0 <= fraction < 2.0 / 100.0
    ensures AtLeastHundredth(newCases as real * fraction, newCases)
  {
    ScaleShare(newCases as real, fraction, 100.0, 50.0);
  }

  lemma TruncatedUpper(x: real, n: nat)
    requires WithinFiftieth(x, n)
    ensures var d := ClampNonNegative(TruncateTowardZero(x));
      0 <= d && 50 * d <= n
  {
  }

  lemma TruncatedLower(x: real, n: nat)
    requires AtLeastHundredth(x, n)
    ensures n < 100 * ClampNonNegative(TruncateTowardZero(x)) + 100
  {
  }

  /** With a fraction drawn from [0.015, 0.025), cumulative deaths of a non-negative cumulative
      case count are never negative and at most 2.5% of it. */
  lemma CumulativeDeathsBounds(casesCumulative: nat, fraction: real)
    requires 15.0 / 1000.0 <= fraction < 25.0 / 1000.0
    ensures var d := CumulativeDeaths(casesCumulative, fraction);
      0 <= d && 40 * d <= casesCumulative
  {
    CumulativeDeathsShare(casesCumulative, fraction);
    TruncatedCumulativeDeaths(casesCumulative as real * fraction, casesCumulative);
  }

  /** x is a non-negative share of n of at most 1/40 of it. */
  predicate WithinFortieth(x: real, n: nat)
  {
    0.0 <= x && 40.0 * x <= n as real
  }

  lemma CumulativeDeathsShare(casesCumulative: nat, fraction: real)
    requires 15.0 / 1000.0 <= fraction < 25.0 / 1000.0
    ensures WithinFortieth(casesCumulative as real * fraction, casesCumulative)
  {
    ScaleShare(casesCumulative as real, fraction, 100.0, 40.0);
  }

  lemma TruncatedCumulativeDeaths(x: real, n: nat)
    requires WithinFortieth(x, n)
    ensures var t := TruncateTowardZero(x);
      0 <= t && 40 * t <= n
  {
  }

  /** A share f of a non-negative amount n, with 1 <= lo * f and hi * f <= 1. */
  lemma ScaleShare(n: real, f: real, lo: real, hi: real)
    requires 0.0 <= n && 0.0 <= f && 1.0 <= lo * f && hi * f <= 1.0
    ensures 0.0 <= n * f
    ensures n <= lo * (n * f)
    ensures hi * (n * f) <= n
  {
    assert lo * (n * f) == n * (lo * f);
    assert hi * (n * f) == n * (hi * f);
  }

  /** Given valid draws and a non-negative base, new cases and new deaths are never negative,
      the cumulative count is never below the base, and the death figures keep their bounds. */
  lemma CaseRecordSound(state: string, pop: nat, baseCases: int, draw: DayDraws, day: nat)
    requires ValidDayDraws(draw) && 0 <= baseCases
    ensures var r := CaseRecordAt(state, pop, baseCases, draw, day);
      && r.newCases >= 0 && r.newDeaths >= 0
      && 50 * r.newDeaths <= r.newCases < 100 * r.newDeaths + 100
      && r.casesCumulative == baseCases + r.newCases * (day + 1)
      && r.casesCumulative >= baseCases
      && (day < Days ==> r.casesCumulative <= baseCases + r.newCases * Days)
      && 0 <= r.deathsCumulative && 40 * r.deathsCumulative <= r.casesCumulative
  {
    var newCases := NewCases(draw.newCasesSample);
    NewDeathsBounds(newCases, draw.newDeathsFraction);
    MulMonotone(0, newCases, day + 1);
    CumulativeDeathsBounds(CumulativeCases(baseCases, newCases, day), draw.cumulativeDeathsFraction);
  }

  /** The case table holds 180 records per state. */
  lemma {:induction false} CaseTableLength(states: seq<string>, draws: seq<StateDraws>)
    requires |draws| == |states|
    requires forall i :: 0 <= i < |draws| ==> |draws[i].days| == Days
    ensures |CaseTable(states, draws)| == |states| * Days
  {
    if states != [] {
      var n := |states| - 1;
      CaseTableLength(states[..n], draws[..n]);
    }
  }

  /** Layout of the table: the record at position s*180 + d is day d of the s-th state. */
  lemma {:induction false} CaseTableAt(states: seq<string>, draws: seq<StateDraws>, s: nat, d: nat)
    requires |draws| == |states| && s < |states| && d < Days
    requires forall i :: 0 <= i < |draws| ==> |draws[i].days| == Days
    ensures |CaseTable(states, draws)| == |states| * Days
    ensures s * Days + d < |CaseTable(states, draws)|
    ensures CaseTable(states, draws)[s * Days + d]
      == CaseRecordAt(states[s], PopulationOf(states[s]), draws[s].baseCases, draws[s].days[d], d)
  {
    var n := |states| - 1;
    var prefix, prefixDraws := states[..n], draws[..n];
    CaseTableLength(states, draws);
    CaseTableLength(prefix, prefixDraws);
    if s < n {
      CaseTableAt(prefix, prefixDraws, s, d);
      assert CaseTable(states, draws)[s * Days + d] == CaseTable(prefix, prefixDraws)[s * Days + d];
    } else {
      assert s * Days + d == |CaseTable(prefix, prefixDraws)| + d;
    }
  }

  /** With valid draws (each state's base drawn in [15%, 25%) of its population) the
      synthesizer emits 27 * 180 records ordered by state, then day; each carries its state's
      tabled population and a cumulative count between the state's base draw and
      base + new * 180. */
  lemma CasesLayout(draws: seq<StateDraws>, s: nat, d: nat)
    requires ValidDraws(States, draws) && s < |States| && d < Days
    ensures |CaseTable(States, draws)| == 27 * 180
    ensures var r := CaseTable(States, draws)[s * Days + d];
      var pop := PopulationTable[States[s]];
      && r.state == States[s] && r.day == d && r.population == pop && r.municipality == None
      && pop * 15 / 100 <= draws[s].baseCases < pop * 25 / 100
      && draws[s].baseCases <= r.casesCumulative <= draws[s].baseCases + r.newCases * Days
      && r.newCases >= 0 && r.newDeaths >= 0
  {
    StatesCovered();
    assert ValidStateDraws(PopulationOf(States[s]), draws[s]);
    CaseTableAt(States, draws, s, d);
    CaseRecordSound(States[s], PopulationOf(States[s]), draws[s].baseCases, draws[s].days[d], d);
  }

  /** As written, the cumulative case count of a state can go down from one day to the next:
      a large new-case sample on day 0 and a non-positive one on day 1 are valid draws. */
  lemma CumulativeCasesCanDecrease(state: string, baseCases: int)
    requires BaseCasesLow(PopulationOf(state)) <= baseCases < BaseCasesHigh(PopulationOf(state))
    ensures var draws := StateDraws(baseCases, seq(Days, i =>
              if i == 0 then DayDraws(100.0, 0.01, 0.015) else DayDraws(0.0, 0.01, 0.015)));
      && ValidStateDraws(PopulationOf(state), draws)
      && StateCases(state, draws)[1].casesCumulative < StateCases(state, draws)[0].casesCumulative
  {
  }
}
