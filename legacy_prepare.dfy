/**
 * The older version of the input preparation. It differs from `Prepare` in
 * its defaults: the infected count is the symptomatic share of the active
 * cases (1 when that is NaN), and the place values carry no asymptomatic
 * fraction and no Rt. The recovered step, the notification gate and the
 * Rt fallback are the same and are taken from `Prepare`.
 */
module LegacyPrepare {
  import opened Common
  import opened Prepare

  /** The fixed configuration values this version reads. */
  datatype LegacyConfig = LegacyConfig(asymptomaticProportion: real, resourcesAvailableProportion: real)

  /** The looked-up place rates of this version (no asymptomatic fraction). */
  datatype LegacyRates = LegacyRates(fatalityRatio: real, i1: real, i2: real, i3: real)

  /** The symptomatic active cases, or 1 when the active-case count is NaN. */
  function Symptomatic(row: FarolRow, asymptomaticProportion: real): (i: int)
    ensures row.activeCases.None? ==> i == 1
    ensures row.activeCases.Some? ==> i == Trunc(row.activeCases.value - row.activeCases.value * asymptomaticProportion)
  {
    match row.activeCases
    case None => 1
    case Some(a) => Trunc(a * (1.0 - asymptomaticProportion))
  }

  /**
   * With a proportion in [0, 1] and a non-negative count, the symptomatic
   * count lies between 0 and the active cases, and no active case is dropped
   * when the proportion is 0.
   */
  lemma SymptomaticBounds(row: FarolRow, asymptomaticProportion: real)
    requires row.activeCases.Some? && row.activeCases.value >= 0.0
    requires 0.0 <= asymptomaticProportion <= 1.0
    ensures 0 <= Symptomatic(row, asymptomaticProportion)
    ensures Symptomatic(row, asymptomaticProportion) as real <= row.activeCases.value
    ensures asymptomaticProportion == 0.0 ==> Symptomatic(row, asymptomaticProportion) == row.activeCases.value.Floor
  {
    var a := row.activeCases.value;
    assert 0.0 <= a * (1.0 - asymptomaticProportion) <= a by {
      ProductBound(a, 1.0 - asymptomaticProportion);
    }
  }

  lemma ProductBound(a: real, f: real)
    requires a >= 0.0 && 0.0 <= f <= 1.0
    ensures 0.0 <= a * f <= a
  {
    assert a * f <= a * 1.0;
  }

  /** The simulator's parameters in this version. */
  class LegacyParams {
    const population: Population
    const place: LegacyRates
    const nBeds: Option<real>
    const nIcuBeds: Option<real>
    var r0: R0Bounds

    constructor (population: Population, place: LegacyRates, nBeds: Option<real>, nIcuBeds: Option<real>, r0: R0Bounds)
      ensures this.population == population && this.place == place
      ensures this.nBeds == nBeds && this.nIcuBeds == nIcuBeds && this.r0 == r0
    {
      this.population := population;
      this.place := place;
      this.nBeds := nBeds;
      this.nIcuBeds := nIcuBeds;
      this.r0 := r0;
    }
  }

  /**
   * `prepare_simulation` of the older version: `int()` of a NaN population
   * raises; otherwise the same gate and recovered step as `Prepare`.
   */
  method PrepareSimulation(
    row: FarolRow, placeId: string, config: LegacyConfig, rates: LegacyRates, stateRt: seq<StateRt>)
    returns (out: Preparation<LegacyParams>)
    ensures out.ConversionError? <==> row.population.None?
    ensures row.population.Some? ==> (out.NoProjection? <==> Projection(row, placeId, stateRt).None?)
    ensures out.Ready? ==>
              var p := out.params;
              && fresh(p) && fresh(p.population)
              && p.r0 == Projection(row, placeId, stateRt).value
              && p.population.N == Trunc(row.population.value)
              && p.population.I == Symptomatic(row, config.asymptomaticProportion)
              && p.population.D == DeathsOrZero(row)
              && p.population.R == Some(RecoveredEstimate(ConfirmedAdjusted(row), p.population.I, p.population.D))
              && p.place == rates
              && p.nBeds == Available(row.numberBeds, config.resourcesAvailableProportion)
              && p.nIcuBeds == Available(row.numberIcuBeds, config.resourcesAvailableProportion)
  {
    var symptomatic := Symptomatic(row, config.asymptomaticProportion);
    if row.population.None? {
      return ConversionError;
    }
    var pop := new Population(Trunc(row.population.value), symptomatic, DeathsOrZero(row));
    var params := new LegacyParams(
      pop, rates,
      Available(row.numberBeds, config.resourcesAvailableProportion),
      Available(row.numberIcuBeds, config.resourcesAvailableProportion),
      R0Bounds(RowValue(row.rtMostLikely), RowValue(row.rtHigh95)));

    if row.notificationRate.None? {
      return NoProjection;
    }
    if row.notificationRate.value == 0.0 {
      return NoProjection;
    }

    if row.rtMostLikely.None? {
      if placeId != HealthRegionId {
        return NoProjection;
      }
      var fallback := StateFallback(stateRt, row.stateNumId);
      if fallback.None? {
        return NoProjection;
      }
      params.r0 := fallback.value;
    }

    CalculateRecovered(row, params.population);
    return Ready(params);
  }
}
