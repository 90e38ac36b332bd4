/** The vaccination dose-series generator (`criar_dados_vacinacao`).
    For every state and every one of eight age bands it emits 180 daily records. The cumulative
    first-dose count grows linearly towards the band's target coverage, the second dose is 85%
    of the first and the booster 60% of the second, and each day's new doses are the clamped
    difference with the value carried over from the day before.
    Floats are exact ratios here: coverages are integer percents, the progress ratio
    `min(1.0, (i + 1) / 180)` is a numerator over 180, and `int(...)` of these non-negative
    products is floor division. Bit-exact float rounding at integer boundaries is abstracted. */
module Vaccination {
  import opened Arith
  import opened Config

  /** The eight age bands, in generation order. */
  const AgeBands: seq<string> := ["0-17", "18-29", "30-39", "40-49", "50-59", "60-69", "70-79", "80+"]

  const BandCount: nat := 8

  /** One row of the vaccination table. `day` is the index of the date in the 180-day range. */
  datatype VaccinationRecord = VaccinationRecord(
    day: nat,
    state: string,
    band: string,
    firstDoses: nat,      // doses_1d_acumuladas
    secondDoses: nat,     // doses_2d_acumuladas
    boosterDoses: nat,    // doses_reforcobónus_acumuladas
    newFirstDoses: int,   // doses_1d_novas
    newSecondDoses: int,  // doses_2d_novas
    newBoosterDoses: int, // doses_reforco_novas
    bandPopulation: nat)  // populacao_faixa

  datatype Tier = First | Second | Booster

  function Cumulative(r: VaccinationRecord, tier: Tier): nat
  {
    match tier
    case First => r.firstDoses
    case Second => r.secondDoses
    case Booster => r.boosterDoses
  }

  function NewDoses(r: VaccinationRecord, tier: Tier): int
  {
    match tier
    case First => r.newFirstDoses
    case Second => r.newSecondDoses
    case Booster => r.newBoosterDoses
  }

  /** Target coverage of a band, in percent: 95 for "80+", 90 for "60-69" and "70-79",
      85 for "40-49" and "50-59", 70 for any other band. */
  function TargetCoverage(band: string): (percent: nat)
    ensures 70 <= percent <= 95
  {
    if band == "80+" then 95
    else if band == "60-69" || band == "70-79" then 90
    else if band == "40-49" || band == "50-59" then 85
    else 70
  }

  /** Older bands never get a lower target than younger ones. */
  lemma CoverageGrowsWithAge(i: nat, j: nat)
    requires i <= j < |AgeBands|
    ensures TargetCoverage(AgeBands[i]) <= TargetCoverage(AgeBands[j])
    ensures TargetCoverage(AgeBands[j]) == (if j == 7 then 95 else if j >= 5 then 90 else if j >= 3 then 85 else 70)
  {
  }

  /** `int(pop * (1 / 8))`: one eighth of the state population, rounded down. */
  function BandPopulation(pop: nat): (popBand: nat)
    ensures BandCount * popBand <= pop < BandCount * popBand + BandCount
  {
    pop / BandCount
  }

  /** The progress ratio `min(1.0, (i + 1) / 180)`, as a numerator over Days. */
  function Progress(day: nat): (p: nat)
    ensures 0 < p <= Days
    ensures p == Days <==> day + 1 >= Days
    ensures day < Days ==> p == day + 1
  {
    if day + 1 < Days then day + 1 else Days
  }

  lemma ProgressMonotone(d: nat, d': nat)
    requires d <= d'
    ensures Progress(d) <= Progress(d')
  {
  }

  /** `int(pop_faixa * cobertura_alvo * progresso)`: never above the band's target
      floor(popBand * coverage%), and equal to it from the last day on. */
  function FirstDosesAt(popBand: nat, coverage: nat, day: nat): (first: nat)
    ensures first <= popBand * coverage / 100
    ensures day + 1 >= Days ==> first == popBand * coverage / 100
  {
    MulMonotone(Progress(day), Days, popBand * coverage);
    DivMonotone(popBand * coverage * Progress(day), popBand * coverage * Days, 100 * Days);
    DivCancel(popBand * coverage, 100, Days);
    popBand * coverage * Progress(day) / (100 * Days)
  }

  /** `int(doses_1d * 0.85)`. */
  function SecondDoses(first: nat): (second: nat)
    ensures second <= first
  {
    first * 85 / 100
  }

  /** `int(doses_2d * 0.60)`. */
  function BoosterDoses(second: nat): (booster: nat)
    ensures booster <= second
  {
    second * 60 / 100
  }

  /** Cumulative count of a tier on a day of a series. */
  function DosesAt(tier: Tier, popBand: nat, coverage: nat, day: nat): nat
  {
    match tier
    case First => FirstDosesAt(popBand, coverage, day)
    case Second => SecondDoses(FirstDosesAt(popBand, coverage, day))
    case Booster => BoosterDoses(SecondDoses(FirstDosesAt(popBand, coverage, day)))
  }

  /** The value carried into a day: 0 before the first day, else the previous day's count. */
  function CarriedDoses(tier: Tier, popBand: nat, coverage: nat, day: nat): nat
  {
    if day == 0 then 0 else DosesAt(tier, popBand, coverage, day - 1)
  }

  /** The record emitted for one day of one (state, band) series, stated without carried state:
      the previous day's counts are recomputed rather than remembered. */
  function SeriesRecord(state: string, band: string, pop: nat, day: nat): VaccinationRecord
  {
    var popBand := BandPopulation(pop);
    var coverage := TargetCoverage(band);
    VaccinationRecord(
      day, state, band,
      DosesAt(First, popBand, coverage, day),
      DosesAt(Second, popBand, coverage, day),
      DosesAt(Booster, popBand, coverage, day),
      ClampNonNegative(DosesAt(First, popBand, coverage, day) - CarriedDoses(First, popBand, coverage, day)),
      ClampNonNegative(DosesAt(Second, popBand, coverage, day) - CarriedDoses(Second, popBand, coverage, day)),
      ClampNonNegative(DosesAt(Booster, popBand, coverage, day) - CarriedDoses(Booster, popBand, coverage, day)),
      popBand)
  }

  /** The 180 records of one (state, band) series, in day order. */
  function BandSeries(state: string, band: string, pop: nat): seq<VaccinationRecord>
  {
    seq(Days, day requires 0 <= day => SeriesRecord(state, band, pop, day))
  }

  /** The day loop of one (state, band) series, carrying the three cumulative counters from one
      day to the next exactly as the source does. */
  method GenerateBandSeries(state: string, band: string, pop: nat) returns (series: seq<VaccinationRecord>)
    ensures series == BandSeries(state, band, pop)
  {
    var coverage := TargetCoverage(band);
    var popBand := BandPopulation(pop);
    var carriedFirst: int, carriedSecond: int, carriedBooster: int := 0, 0, 0;
    series := [];
    for i := 0 to Days
      invariant |series| == i
      invariant forall k :: 0 <= k < i ==> series[k] == SeriesRecord(state, band, pop, k)
      invariant carriedFirst == CarriedDoses(First, popBand, coverage, i)
      invariant carriedSecond == CarriedDoses(Second, popBand, coverage, i)
      invariant carriedBooster == CarriedDoses(Booster, popBand, coverage, i)
    {
      var first: int := FirstDosesAt(popBand, coverage, i);
      var second: int := SecondDoses(first);
      var booster: int := BoosterDoses(second);
      var newFirst := ClampNonNegative(first - carriedFirst);
      var newSecond := ClampNonNegative(second - carriedSecond);
      var newBooster := ClampNonNegative(booster - carriedBooster);
      carriedFirst, carriedSecond, carriedBooster := first, second, booster;
      var record := VaccinationRecord(i, state, band, carriedFirst, carriedSecond, carriedBooster,
                                      newFirst, newSecond, newBooster, popBand);
      assert record == SeriesRecord(state, band, pop, i);
      series := series + [record];
    }
  }

  // ---------------------------------------------------------------------------------------------
  // Properties of one series

  /** Within a series each tier's cumulative count never decreases from one day to a later one. */
  lemma DosesMonotone(tier: Tier, popBand: nat, coverage: nat, d: nat, d': nat)
    requires d <= d'
    ensures DosesAt(tier, popBand, coverage, d) <= DosesAt(tier, popBand, coverage, d')
  {
    ProgressMonotone(d, d');
    MulMonotone(Progress(d), Progress(d'), popBand * coverage);
    assert popBand * coverage * Progress(d) <= popBand * coverage * Progress(d');
    DivMonotone(popBand * coverage * Progress(d), popBand * coverage * Progress(d'), 100 * Days);
    var f, f' := FirstDosesAt(popBand, coverage, d), FirstDosesAt(popBand, coverage, d');
    DivMonotone(f * 85, f' * 85, 100);
    DivMonotone(SecondDoses(f) * 60, SecondDoses(f') * 60, 100);
  }

  /** Every record of a series keeps the tier order first >= second >= booster, and its new-dose
      counts are the exact (never clamped, never negative) differences with the carried value. */
  lemma SeriesRecordSound(state: string, band: string, pop: nat, day: nat)
    ensures var r := SeriesRecord(state, band, pop, day);
      r.boosterDoses <= r.secondDoses <= r.firstDoses
      && r.newFirstDoses >= 0 && r.newSecondDoses >= 0 && r.newBoosterDoses >= 0
      && forall tier :: NewDoses(r, tier) == Cumulative(r, tier) - CarriedDoses(tier, BandPopulation(pop), TargetCoverage(band), day)
  {
    var popBand, coverage := BandPopulation(pop), TargetCoverage(band);
    if day > 0 {
      DosesMonotone(First, popBand, coverage, day - 1, day);
      DosesMonotone(Second, popBand, coverage, day - 1, day);
      DosesMonotone(Booster, popBand, coverage, day - 1, day);
    }
  }

  /** Days of a series are in order and each tier's cumulative count is non-decreasing over them. */
  lemma SeriesMonotone(state: string, band: string, pop: nat, d: nat, d': nat, tier: Tier)
    requires d <= d' < Days
    ensures BandSeries(state, band, pop)[d].day == d
    ensures Cumulative(BandSeries(state, band, pop)[d], tier) <= Cumulative(BandSeries(state, band, pop)[d'], tier)
  {
    DosesMonotone(tier, BandPopulation(pop), TargetCoverage(band), d, d');
  }

  /** Sum of the new-dose counts of one tier over a run of records. */
  function SumNewDoses(rs: seq<VaccinationRecord>, tier: Tier): int
  {
    if rs == [] then 0 else SumNewDoses(rs[..|rs| - 1], tier) + NewDoses(rs[|rs| - 1], tier)
  }

  /** A run of records in which the first new-dose count of a tier is its cumulative count
      (carried from 0) and every later one is the difference with the record before. */
  predicate DeltasFromZero(rs: seq<VaccinationRecord>, tier: Tier)
  {
    |rs| > 0
    && NewDoses(rs[0], tier) == Cumulative(rs[0], tier)
    && forall k :: 0 < k < |rs| ==> NewDoses(rs[k], tier) == Cumulative(rs[k], tier) - Cumulative(rs[k - 1], tier)
  }

  /** New-dose counts that are differences from a zero start add up to the last cumulative count. */
  lemma {:induction false} SumTelescopes(rs: seq<VaccinationRecord>, tier: Tier)
    requires DeltasFromZero(rs, tier)
    ensures SumNewDoses(rs, tier) == Cumulative(rs[|rs| - 1], tier)
  {
    if |rs| > 1 {
      var prefix := rs[..|rs| - 1];
      assert forall k :: 0 <= k < |prefix| ==> prefix[k] == rs[k];
      SumTelescopes(prefix, tier);
    }
  }

  /** The new-dose counts of the first k days telescope to the cumulative count of day k - 1. */
  lemma NewDosesTelescope(state: string, band: string, pop: nat, tier: Tier, k: nat)
    requires 0 < k <= Days
    ensures SumNewDoses(BandSeries(state, band, pop)[..k], tier) == Cumulative(BandSeries(state, band, pop)[k - 1], tier)
  {
    var run := BandSeries(state, band, pop)[..k];
    forall j | 0 < j < k
      ensures NewDoses(run[j], tier) == Cumulative(run[j], tier) - Cumulative(run[j - 1], tier)
    {
      SeriesRecordSound(state, band, pop, j);
      assert run[j - 1] == SeriesRecord(state, band, pop, j - 1);
    }
    SeriesRecordSound(state, band, pop, 0);
    assert run[0] == SeriesRecord(state, band, pop, 0);
    SumTelescopes(run, tier);
  }

  /** On the last day progress is complete: the final first-dose count is
      floor(band population * coverage), the whole series' new doses add up to each tier's
      final count, and the second-dose and booster finals follow from the first. */
  lemma SeriesFinal(state: string, band: string, pop: nat)
    ensures var series := BandSeries(state, band, pop);
      var last := series[Days - 1];
      && last.firstDoses == BandPopulation(pop) * TargetCoverage(band) / 100
      && last.secondDoses == last.firstDoses * 85 / 100
      && last.boosterDoses == last.secondDoses * 60 / 100
      && forall tier :: SumNewDoses(series, tier) == Cumulative(last, tier)
  {
    var series := BandSeries(state, band, pop);
    DivCancel(BandPopulation(pop) * TargetCoverage(band), 100, Days);
    assert series[..Days] == series;
    forall tier ensures SumNewDoses(series, tier) == Cumulative(series[Days - 1], tier) {
      NewDosesTelescope(state, band, pop, tier, Days);
    }
  }

  // ---------------------------------------------------------------------------------------------
  // The whole table

  /** The series of one state for each band of `bands`, concatenated in band order. */
  function StateBlock(state: string, bands: seq<string>): seq<VaccinationRecord>
  {
    if bands == [] then []
    else StateBlock(state, bands[..|bands| - 1]) + BandSeries(state, bands[|bands| - 1], PopulationOf(state))
  }

  /** The blocks of `states`, concatenated in state order. */
  function Table(states: seq<string>): seq<VaccinationRecord>
  {
    if states == [] then []
    else Table(states[..|states| - 1]) + StateBlock(states[|states| - 1], AgeBands)
  }

  /** The band loop of one state: its eight series, one after the other. */
  method GenerateStateBlock(state: string) returns (block: seq<VaccinationRecord>)
    ensures block == StateBlock(state, AgeBands)
  {
    var pop := PopulationOf(state);
    block := [];
    for b := 0 to |AgeBands|
      invariant block == StateBlock(state, AgeBands[..b])
    {
      var series := GenerateBandSeries(state, AgeBands[b], pop);
      assert AgeBands[..b + 1][..b] == AgeBands[..b];
      block := block + series;
    }
    assert AgeBands[..|AgeBands|] == AgeBands;
  }

  /** `criar_dados_vacinacao`: for each state, for each age band, the day loop. */
  method GenerateVaccination() returns (records: seq<VaccinationRecord>)
    ensures records == Table(States)
  {
    records := [];
    for s := 0 to |States|
      invariant records == Table(States[..s])
    {
      var block := GenerateStateBlock(States[s]);
      assert States[..s + 1][..s] == States[..s];
      records := records + block;
    }
    assert States[..|States|] == States;
  }

  /** A state block holds 180 records per band. */
  lemma {:induction false} StateBlockLength(state: string, bands: seq<string>)
    ensures |StateBlock(state, bands)| == |bands| * Days
  {
    if bands != [] {
      StateBlockLength(state, bands[..|bands| - 1]);
    }
  }

  /** Layout of a state block: the series of band b occupies positions b*180 .. b*180+179. */
  lemma {:induction false} StateBlockAt(state: string, bands: seq<string>, b: nat, d: nat)
    requires b < |bands| && d < Days
    ensures |StateBlock(state, bands)| == |bands| * Days
    ensures b * Days + d < |StateBlock(state, bands)|
    ensures StateBlock(state, bands)[b * Days + d] == SeriesRecord(state, bands[b], PopulationOf(state), d)
  {
    var n := |bands| - 1;
    var prefix := bands[..n];
    StateBlockLength(state, bands);
    StateBlockLength(state, prefix);
    if b < n {
      StateBlockAt(state, prefix, b, d);
      assert StateBlock(state, bands)[b * Days + d] == StateBlock(state, prefix)[b * Days + d];
    } else {
      assert b * Days + d == |StateBlock(state, prefix)| + d;
    }
  }

  /** The table holds 8 * 180 records per state. */
  lemma {:induction false} TableLength(states: seq<string>)
    ensures |Table(states)| == |states| * (BandCount * Days)
  {
    if states != [] {
      var n := |states| - 1;
      TableLength(states[..n]);
      StateBlockLength(states[n], AgeBands);
    }
  }

  /** Layout of the table: the record at position (s*8 + b)*180 + d is day d of state s, band b. */
  lemma {:induction false} TableAt(states: seq<string>, s: nat, b: nat, d: nat)
    requires s < |states| && b < BandCount && d < Days
    ensures |Table(states)| == |states| * (BandCount * Days)
    ensures (s * BandCount + b) * Days + d < |Table(states)|
    ensures Table(states)[(s * BandCount + b) * Days + d] == SeriesRecord(states[s], AgeBands[b], PopulationOf(states[s]), d)
  {
    var n := |states| - 1;
    var prefix := states[..n];
    TableLength(states);
    TableLength(prefix);
    StateBlockAt(states[n], AgeBands, b, d);
    var i := (s * BandCount + b) * Days + d;
    assert i == s * 1440 + (b * 180 + d);
    if s < n {
      TableAt(prefix, s, b, d);
      assert Table(states)[i] == Table(prefix)[i];
    } else {
      assert i == |Table(prefix)| + (b * Days + d);
    }
  }

  /** The generator emits 27 * 8 * 180 records ordered by state, then band, then day; every
      record of a state carries the same band population, floor(pop / 8), whatever its band. */
  lemma VaccinationLayout(s: nat, b: nat, d: nat)
    requires s < |States| && b < BandCount && d < Days
    ensures |Table(States)| == 27 * 8 * 180
    ensures var r := Table(States)[(s * BandCount + b) * Days + d];
      r.state == States[s] && r.band == AgeBands[b] && r.day == d
      && r.bandPopulation == PopulationTable[States[s]] / 8
  {
    StatesCovered();
    TableAt(States, s, b, d);
  }

  /** Within the table, the records of one (state, band) pair are in day order and each tier's
      cumulative count never decreases from one day to a later one. */
  lemma TableMonotone(states: seq<string>, s: nat, b: nat, d: nat, d': nat, tier: Tier)
    requires s < |states| && b < BandCount && d <= d' < Days
    ensures var start := (s * BandCount + b) * Days;
      start + d' < |Table(states)|
      && var r, r' := Table(states)[start + d], Table(states)[start + d'];
      && r.state == r'.state == states[s] && r.band == r'.band == AgeBands[b]
      && r.day == d && r'.day == d'
      && Cumulative(r, tier) <= Cumulative(r', tier)
  {
    TableAt(states, s, b, d);
    TableAt(states, s, b, d');
    DosesMonotone(tier, BandPopulation(PopulationOf(states[s])), TargetCoverage(AgeBands[b]), d, d');
  }

  /** Tier order and non-negative new doses hold for every record of every state's block. */
  lemma {:induction false} StateBlockSound(state: string, bands: seq<string>, r: VaccinationRecord)
    requires r in StateBlock(state, bands)
    ensures r.boosterDoses <= r.secondDoses <= r.firstDoses
    ensures r.newFirstDoses >= 0 && r.newSecondDoses >= 0 && r.newBoosterDoses >= 0
  {
    var n := |bands| - 1;
    if r in StateBlock(state, bands[..n]) {
      StateBlockSound(state, bands[..n], r);
    } else {
      var series := BandSeries(state, bands[n], PopulationOf(state));
      var day :| 0 <= day < |series| && series[day] == r;
      SeriesRecordSound(state, bands[n], PopulationOf(state), day);
    }
  }

  /** Every generated record keeps first >= second >= booster and has no negative new doses. */
  lemma {:induction false} TableSound(states: seq<string>, r: VaccinationRecord)
    requires r in Table(states)
    ensures r.boosterDoses <= r.secondDoses <= r.firstDoses
    ensures r.newFirstDoses >= 0 && r.newSecondDoses >= 0 && r.newBoosterDoses >= 0
  {
    var n := |states| - 1;
    if r in Table(states[..n]) {
      TableSound(states[..n], r);
    } else {
      StateBlockSound(states[n], AgeBands, r);
    }
  }
}
