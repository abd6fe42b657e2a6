/**
 * The synthetic PM2.5 reading of the environmental uploader (`generate_pm25`):
 * a base level chosen by the hour of day, plus a uniform perturbation of at
 * most 15 micrograms per cubic metre, rounded to one decimal place.
 *
 * Readings are kept in integer tenths, so that rounding to one decimal is
 * exact: the base levels are whole numbers and the rounded perturbation is a
 * whole number of tenths in [-150, 150].
 */
module Readings {

  /** `datetime.now().hour`. */
  type Hour = h: int | 0 <= h < 24

  /** `round(random.uniform(-15, 15), 1)`, in tenths. */
  type Noise = n: int | -150 <= n <= 150

  const MAX_NOISE := 150

  /** The six periods of the day that the reading generator distinguishes. */
  datatype Period = EarlyPeak | Morning | Midday | Afternoon | EveningPeak | Night

  /** The hours each period covers, stated independently of the if/elif chain. */
  predicate InWindow(hour: int, p: Period) {
    match p
    case EarlyPeak => 5 <= hour <= 8
    case Morning => 9 <= hour <= 11
    case Midday => 12 <= hour <= 13
    case Afternoon => 14 <= hour <= 17
    case EveningPeak => 18 <= hour <= 20
    case Night => 21 <= hour <= 23 || 0 <= hour <= 4
  }

  /** The period the if/elif chain of `generate_pm25` selects for an hour. */
  function PeriodOf(hour: Hour): (p: Period)
    ensures InWindow(hour, p)
  {
    if 5 <= hour < 9 then EarlyPeak
    else if 9 <= hour < 12 then Morning
    else if 12 <= hour < 14 then Midday
    else if 14 <= hour < 18 then Afternoon
    else if 18 <= hour < 21 then EveningPeak
    else Night
  }

  /** The base level of a period, in tenths of a microgram per cubic metre. */
  function BaseLevel(p: Period): (b: int)
    ensures 550 <= b <= 900
  {
    match p
    case EarlyPeak => 850
    case Morning => 750
    case Midday => 550
    case Afternoon => 650
    case EveningPeak => 900
    case Night => 800
  }

  /** One reading, in tenths: the hour's base level plus the rounded noise. */
  function GeneratePm25(hour: Hour, noise: Noise): (r: int)
    ensures BaseLevel(PeriodOf(hour)) - MAX_NOISE <= r <= BaseLevel(PeriodOf(hour)) + MAX_NOISE
    ensures 400 <= r <= 1050
  {
    BaseLevel(PeriodOf(hour)) + noise
  }

  /** The windows partition the day: every hour lies in exactly one, the one `PeriodOf` picks. */
  lemma WindowsPartitionDay(hour: Hour, p: Period)
    ensures InWindow(hour, p) <==> p == PeriodOf(hour)
  {
  }

  /** The six periods have six different base levels. */
  lemma BaseLevelsDistinct(p: Period, q: Period)
    ensures BaseLevel(p) == BaseLevel(q) ==> p == q
  {
  }
}
