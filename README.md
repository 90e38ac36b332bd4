# COVID-19 and vaccination data synthesizers, modelled in Dafny

The repository is a one-shot script, `data/download_data.py`, that tries to download real
COVID-19 case statistics for the 27 Brazilian federative units, falls back to a synthetic
"demonstration" case table when that fails, and always synthesizes a vaccination table. This
project models the two synthesizers and the state/population table they share:

- `Config` — the list of 27 state codes, their hard-coded populations with the
  `dict.get(estado, 3000000)` lookup, and the 180-day span. The source repeats the list and the
  dictionary in both generators; the model defines them once.
- `Vaccination` — `criar_dados_vacinacao`: for each state, each of eight age bands and each of
  180 days, a record of cumulative first-dose, second-dose and booster counts and the day's new
  doses of each tier. The coverage step function, the band population and the per-day dose
  formulas are functions; the three nested loops are methods (`GenerateVaccination` over states,
  `GenerateStateBlock` over bands, `GenerateBandSeries` over days, the last carrying the three
  cumulative counters from one day to the next as the source does). Each method is proved equal
  to a closed-form specification (`Table`, `StateBlock`, `BandSeries`) in which the previous
  day's counts are recomputed instead of carried; the properties are lemmas about that
  specification.
- `Cases` — the per-day arithmetic of `criar_dataset_demonstracao_covid`, with numpy's random
  draws supplied as inputs (`StateDraws`, `DayDraws`). A draw that numpy guarantees to lie in a
  range (`randint`, `uniform`) is a precondition of the properties proved about the records; the
  generator itself needs only one draw per state and one day draw per day. The normal sample is
  any real. The loops over
  states and days are methods proved equal to `CaseTable` / `StateCases`.
- `Arith` — `max(0, ·)`, `int(·)` of a float (truncation toward zero) and small facts about
  integer division used by the proofs.

Arithmetic. The source multiplies by Python floats (0.95, 0.85, 0.60, `(i + 1) / 180`, 0.15,
0.25, `1 / 8`). The model uses exact integers and floor division: coverages are the integer
percents 95/90/85/70, the tier factors are 85/100 and 60/100, the progress ratio is the numerator
`min(i + 1, 180)` over 180, `int(pop * (1 / 8))` is `pop / 8` (exact, since 0.125 is a binary
fraction), and `int(pop * 0.15)` is `pop * 15 / 100`. Bit-exact IEEE-754 rounding at integer
boundaries (a product such as `d * 0.85` landing just below an integer) is abstracted. The
uniform death fractions are exact reals in their half-open ranges.

The case synthesizer's cumulative count is kept exactly as written, `casos_base +
casos_novos * (i + 1)`: one day's new-case draw scaled by the day number, not a running sum.
`CumulativeCasesCanDecrease` shows that, unlike the vaccination table, this column can go down
from one day to the next under valid draws. Which accumulation was intended is ambiguous, so the
model does not correct it.

## Model

| member | source | states |
|---|---|---|
| `Arith.ClampNonNegative` | data/download_data.py:174-176 | `max(0, x)` is non-negative, at least `x`, and is either `x` or 0 |
| `Arith.TruncateTowardZero` | data/download_data.py:96 | `int()` of a float truncates toward zero: for x >= 0 the result is the floor of x, for x < 0 the ceiling |
| `Config.PopulationOf` | data/download_data.py:147 | every population the `dict.get` lookup returns, the 3,000,000 fallback included, is at least 10, so the case generator's `randint` range is never empty |
| `Config.PopulationOfListed` | data/download_data.py:147 | a listed state gets its tabled population, which is never the 3,000,000 fallback; any code outside the list gets the fallback |
| `Config.StatesCovered` | data/download_data.py:127-139 | there are 27 distinct state codes, each has a population entry and the table has no others, and every listed state's population is at least 10 |
| `Vaccination.TargetCoverage` | data/download_data.py:151-158 | the target coverage of any band lies between 70% and 95% |
| `Vaccination.CoverageGrowsWithAge` | data/download_data.py:141-158 | over the eight bands in order, coverage is 70% for the first three, 85% for "40-49" and "50-59", 90% for "60-69" and "70-79", 95% for "80+", and never decreases with age |
| `Vaccination.BandPopulation` | data/download_data.py:160 | the band population is one eighth of the state population rounded down: `8 * p <= pop < 8 * p + 8` |
| `Vaccination.Progress` | data/download_data.py:168 | the progress ratio is `(i + 1) / 180` capped at 1, positive, and reaches 1 exactly on the last day |
| `Vaccination.ProgressMonotone` | data/download_data.py:168 | the progress ratio never decreases from one day to a later one |
| `Vaccination.FirstDosesAt` | data/download_data.py:170 | first doses never exceed the band's target floor(band population × coverage), and equal it from the last day on |
| `Vaccination.SecondDoses` | data/download_data.py:171 | the second-dose cumulative (85% of the first, floored) never exceeds the first-dose cumulative |
| `Vaccination.BoosterDoses` | data/download_data.py:172 | the booster cumulative (60% of the second, floored) never exceeds the second-dose cumulative |
| `Vaccination.GenerateBandSeries` | data/download_data.py:160-193 | the day loop with carried counters produces exactly the 180 records of the closed-form series, day by day |
| `Vaccination.DosesMonotone` | data/download_data.py:166-172 | each tier's cumulative count on a day is at most its count on any later day |
| `Vaccination.SeriesRecordSound` | data/download_data.py:170-180 | every record has booster <= second <= first, non-negative new doses, and new doses equal to the exact difference with the carried value (the clamp never fires) |
| `Vaccination.SeriesMonotone` | data/download_data.py:162-180 | records of a series are in day order and each tier's cumulative count is non-decreasing over them |
| `Vaccination.SumTelescopes` | data/download_data.py:162-180 | in any run of records whose new doses are day-over-day differences starting from a carried 0, the new doses sum to the last cumulative count |
| `Vaccination.NewDosesTelescope` | data/download_data.py:162-180 | starting from a carried 0, the new doses of the first k days of a tier add up to that tier's cumulative count on day k - 1 |
| `Vaccination.SeriesFinal` | data/download_data.py:160-180 | on the last day the first-dose count is floor(band population × coverage), second and booster follow from it, and each tier's new doses over the series sum to its final count |
| `Vaccination.GenerateStateBlock` | data/download_data.py:149-193 | the band loop yields the eight series of a state, concatenated in band order |
| `Vaccination.GenerateVaccination` | data/download_data.py:145-193 | the state loop yields every state's block, concatenated in state order |
| `Vaccination.StateBlockLength` | data/download_data.py:149-193 | a state block holds 180 records per age band |
| `Vaccination.StateBlockAt` | data/download_data.py:149-193 | a state block holds 8 × 180 records, band b's day d at position b × 180 + d |
| `Vaccination.TableLength` | data/download_data.py:146-193 | the table holds 8 × 180 records for every state |
| `Vaccination.TableAt` | data/download_data.py:146-193 | the table holds 180 × 8 records per state, day d of band b of state s at position (s × 8 + b) × 180 + d |
| `Vaccination.VaccinationLayout` | data/download_data.py:141-193 | the generator emits 27 × 8 × 180 records ordered by state, band, day, each with its state, band and day, and with band population floor(pop / 8) for all eight bands of a state |
| `Vaccination.TableMonotone` | data/download_data.py:146-193 | within the generated table, the records of one (state, band) pair are in day order and each tier's cumulative count never decreases from a day to a later one |
| `Vaccination.StateBlockSound` | data/download_data.py:149-193 | every record of a state's block keeps the tier order and has non-negative new doses |
| `Vaccination.TableSound` | data/download_data.py:146-193 | every generated vaccination record keeps first >= second >= booster and has non-negative new doses |
| `Cases.NewCases` | data/download_data.py:96 | new cases are never negative: 0 for a sample below 1, otherwise the sample truncated |
| `Cases.BaseCasesLow` | data/download_data.py:92 | the lower end of the base draw is 15% of the population rounded down |
| `Cases.BaseCasesHigh` | data/download_data.py:92 | the exclusive upper end of the base draw is 25% of the population rounded down |
| `Cases.CumulativeCases` | data/download_data.py:97 | with non-negative new cases, the as-written cumulative count base + new × (i + 1) is at least the base and, on any of the 180 days, at most base + new × 180 |
| `Cases.NewDeaths` | data/download_data.py:100 | `max(0, int(new × fraction))` is never negative, whatever the fraction |
| `Cases.GenerateStateCases` | data/download_data.py:94-112 | the day loop yields the 180 records of a state given its draws |
| `Cases.GenerateCases` | data/download_data.py:87-112 | the state loop yields every state's records, concatenated in state order |
| `Cases.BaseRangeNonEmpty` | data/download_data.py:92 | for any population of at least 10 the `randint` range [floor(15% pop), floor(25% pop)) is non-empty |
| `Cases.ValidDrawsExist` | data/download_data.py:88-92 | for every listed state a valid draw exists (its `randint` range is non-empty), so the generator's precondition on the draws can be met |
| `Cases.NewDeathsBounds` | data/download_data.py:100 | with a fraction in [0.01, 0.02), new deaths (`NewDeaths`) are non-negative, at most 2% and at least 1% (rounded down) of new cases |
| `Cases.CumulativeDeathsBounds` | data/download_data.py:101 | with a fraction in [0.015, 0.025), cumulative deaths (`CumulativeDeaths`, `int(cumulative × fraction)`) are non-negative and at most 2.5% of the cumulative cases |
| `Cases.CaseRecordSound` | data/download_data.py:92-101 | with valid day draws, new cases and new deaths are non-negative and cumulative cases equal base + new × (day + 1), hence at least the base and, on a generated day, at most base + new × 180; death bounds as above |
| `Cases.CaseTableLength` | data/download_data.py:88-112 | the case table holds 180 records per state |
| `Cases.CaseTableAt` | data/download_data.py:88-112 | the case table holds 180 records per state, day d of state s at position s × 180 + d |
| `Cases.CasesLayout` | data/download_data.py:70-112 | assuming valid draws (each base drawn in [15%, 25%) of the population), the synthesizer emits 27 × 180 records ordered by state then day, each with its tabled population, no municipality, cumulative cases between the base and base + new × 180, and non-negative new counts |
| `Cases.CumulativeCasesCanDecrease` | data/download_data.py:96-97 | as written, valid draws exist under which a state's cumulative case count on day 1 is below that of day 0 |

## Left out

- The real-data path `baixar_dados_covid` (data/download_data.py:14-61): the HTTPS download of a gzip CSV, the `place_type` filter, the six-month `DateOffset` window, the column selection and renaming, and the catch-all fallback are network and pandas behaviour. Consequently the column-rename mapping is not modelled.
- Writing CSV files, `os.makedirs`, `main` and all console output (data/download_data.py:114-118, 195-199, 204-231).
- Dates: `datetime.now()`, `pd.date_range` and `strftime` formatting; a day is its index 0..179.
- The distributions of numpy's normal, uniform and randint draws, and seeding; only the ranges the draws fall in are modelled, as preconditions on supplied values. A reproducibility property for a fixed seed is therefore not stated.
- Bit-exact IEEE-754 rounding of the float products; exact rational arithmetic with floor stands in for it.
- The single Python function `criar_dados_vacinacao` is split into three methods, one per loop; the order in which records are appended is the same.
- Cases.CumulativeDeathsBounds: cumulative deaths are bounded only from above (2.5%), not from below by the 1.5% lower end of their fraction; they are otherwise unrelated to any other field, as in the source.
