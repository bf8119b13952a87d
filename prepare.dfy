/**
 * Preparation of the simulator's inputs from one row of the Farol table:
 * the population parameters, the recovered estimate, the notification-rate
 * gate and the choice of reproduction numbers, with the state-level
 * fallback for health regions that have no Rt of their own.
 */
module Prepare {
  import opened Common

  /** One row of the Farol table; NaN cells are `None`. */
  datatype FarolRow = FarolRow(
    population: Option<real>,
    activeCases: Option<real>,
    deaths: Option<real>,
    confirmedCases: Option<real>,
    notificationRate: Option<real>,
    rtMostLikely: Option<real>,
    rtHigh95: Option<real>,
    stateNumId: int,
    numberBeds: Option<real>,
    numberIcuBeds: Option<real>)

  /** One row of the state-level Rt table; `lastUpdated` is the date as a day number. */
  datatype StateRt = StateRt(stateNumId: int, lastUpdated: int, rtMostLikely: real, rtHigh95: real)

  /**
   * A reproduction number as the simulator receives it: the row's own value
   * (possibly NaN), or the column of every latest state-level row.
   */
  datatype RtEstimate = RowValue(value: Option<real>) | LatestRows(values: seq<real>)

  datatype R0Bounds = R0Bounds(best: RtEstimate, worst: RtEstimate)

  /** The place-specific rates looked up for the row's place. */
  datatype PlaceRates = PlaceRates(fatalityRatio: real, i0: real, i1: real, i2: real, i3: real)

  /** The outcome of a preparation: parameters, "no projection" (NaN), or `int()` of a NaN raising. */
  datatype Preparation<P> = Ready(params: P) | NoProjection | ConversionError

  /** The `population_params` dict: "N", "I", "D" and, once estimated, "R". */
  class Population {
    var N: int
    var I: int
    var D: int
    var R: Option<int>

    constructor (n: int, i: int, d: int)
      ensures N == n && I == i && D == d && R == None
    {
      N, I, D, R := n, i, d, None;
    }
  }

  // ---------------------------------------------------------------------------
  // Recovered

  predicate NotificationUsable(row: FarolRow) {
    row.notificationRate.Some? && row.notificationRate.value != 0.0
  }

  /** Confirmed cases corrected for under-notification; a NaN count sums to 0. */
  function ConfirmedAdjusted(row: FarolRow): (c: int)
    requires NotificationUsable(row)
    ensures row.confirmedCases.None? ==> c == 0
    ensures row.confirmedCases.Some? ==> c == Trunc(row.confirmedCases.value / row.notificationRate.value)
  {
    Trunc(row.confirmedCases.GetOr(0.0) / row.notificationRate.value)
  }

  /** The recovered rule: 0 without cases, else C - I - D, or C - D when that is negative. */
  function RecoveredEstimate(confirmed: int, infected: int, deaths: int): (r: int)
    ensures confirmed == 0 ==> r == 0
    ensures confirmed != 0 ==> r >= 0 || r == confirmed - deaths
    ensures confirmed != 0 && r != confirmed - deaths ==> r + infected + deaths == confirmed
    ensures infected != 0 && confirmed != 0 ==> (r == confirmed - deaths <==> confirmed - infected - deaths < 0)
  {
    if confirmed == 0 then 0
    else if confirmed - infected - deaths < 0 then confirmed - deaths
    else confirmed - infected - deaths
  }

  /**
   * With consistent counts (no negative infected or deaths, deaths not above
   * the confirmed cases) the estimate lies between 0 and C - D, and it
   * accounts for every confirmed case whenever it is not the fallback.
   */
  lemma RecoveredInRange(confirmed: int, infected: int, deaths: int)
    requires 0 <= infected && 0 <= deaths <= confirmed
    ensures 0 <= RecoveredEstimate(confirmed, infected, deaths) <= confirmed - deaths
    ensures RecoveredEstimate(confirmed, infected, deaths) + infected + deaths == confirmed
            || RecoveredEstimate(confirmed, infected, deaths) == confirmed - deaths
  {
  }

  /** The fallback does not protect against negative values: more deaths than cases give R < 0. */
  lemma RecoveredMayBeNegative(confirmed: int, infected: int, deaths: int)
    requires 0 < confirmed < deaths && 0 <= infected
    ensures RecoveredEstimate(confirmed, infected, deaths) == confirmed - deaths < 0
  {
  }

  /**
   * `_calculate_recovered`: writes the "R" entry of the population dict and
   * nothing else; the second branch overwrites the first estimate.
   */
  method CalculateRecovered(row: FarolRow, pop: Population)
    requires NotificationUsable(row)
    modifies pop`R
    ensures pop.R == Some(RecoveredEstimate(ConfirmedAdjusted(row), pop.I, pop.D))
    ensures pop.N == old(pop.N) && pop.I == old(pop.I) && pop.D == old(pop.D)
  {
    var confirmedAdjusted := Trunc(row.confirmedCases.GetOr(0.0) / row.notificationRate.value);
    if confirmedAdjusted == 0 {
      pop.R := Some(0);
      return;
    }
    pop.R := Some(confirmedAdjusted - pop.I - pop.D);
    if pop.R.value < 0 {
      pop.R := Some(confirmedAdjusted - pop.D);
    }
  }

  // ---------------------------------------------------------------------------
  // State-level Rt fallback

  /** The rows of one state, in table order. */
  function RowsOfState(table: seq<StateRt>, id: int): (rows: seq<StateRt>)
    ensures forall r :: r in rows <==> r in table && r.stateNumId == id
    ensures forall r :: multiset(rows)[r] == if r.stateNumId == id then multiset(table)[r] else 0
    ensures |rows| <= |table|
  {
    if table == [] then []
    else
      assert table == [table[0]] + table[1..];
      if table[0].stateNumId == id then [table[0]] + RowsOfState(table[1..], id)
      else RowsOfState(table[1..], id)
  }

  /** The latest `last_updated` of a non-empty set of rows. */
  function MaxUpdated(rows: seq<StateRt>): (m: int)
    requires |rows| > 0
    ensures exists i :: 0 <= i < |rows| && rows[i].lastUpdated == m
    ensures forall i :: 0 <= i < |rows| ==> rows[i].lastUpdated <= m
  {
    if |rows| == 1 then rows[0].lastUpdated
    else
      var rest := MaxUpdated(rows[1..]);
      assert forall i :: 1 <= i < |rows| ==> rows[i] == rows[1..][i - 1];
      if rows[0].lastUpdated >= rest then rows[0].lastUpdated else rest
  }

  /** The rows updated on day `day`, in table order. */
  function UpdatedOn(rows: seq<StateRt>, day: int): (sel: seq<StateRt>)
    ensures forall r :: r in sel <==> r in rows && r.lastUpdated == day
    ensures forall r :: multiset(sel)[r] == if r.lastUpdated == day then multiset(rows)[r] else 0
  {
    if rows == [] then []
    else
      assert rows == [rows[0]] + rows[1..];
      if rows[0].lastUpdated == day then [rows[0]] + UpdatedOn(rows[1..], day)
      else UpdatedOn(rows[1..], day)
  }

  function MostLikelyOf(rows: seq<StateRt>): (vs: seq<real>)
    ensures |vs| == |rows| && forall i :: 0 <= i < |rows| ==> vs[i] == rows[i].rtMostLikely
  {
    seq(|rows|, i requires 0 <= i < |rows| => rows[i].rtMostLikely)
  }

  function High95Of(rows: seq<StateRt>): (vs: seq<real>)
    ensures |vs| == |rows| && forall i :: 0 <= i < |rows| ==> vs[i] == rows[i].rtHigh95
  {
    seq(|rows|, i requires 0 <= i < |rows| => rows[i].rtHigh95)
  }

  /** `r` is a row of state `id` that no other row of the state post-dates. */
  predicate IsLatestStateRow(table: seq<StateRt>, id: int, r: StateRt) {
    && r in table && r.stateNumId == id
    && forall q :: q in table && q.stateNumId == id ==> q.lastUpdated <= r.lastUpdated
  }

  /**
   * The state's rows whose `last_updated` equals the latest one: exactly the
   * rows of the state that no other row of the state post-dates, and there
   * is one whenever the state has any row.
   */
  function LatestStateRows(table: seq<StateRt>, id: int): (sel: seq<StateRt>)
    ensures forall r :: r in sel <==> IsLatestStateRow(table, id, r)
    ensures sel == [] <==> forall r :: r in table ==> r.stateNumId != id
    ensures forall r :: multiset(sel)[r] == if IsLatestStateRow(table, id, r) then multiset(table)[r] else 0
  {
    var rows := RowsOfState(table, id);
    if rows == [] then
      assert forall r :: r in table ==> r.stateNumId != id by {
        forall r | r in table
          ensures r.stateNumId != id
        {
          assert r !in rows;
        }
      }
      []
    else
      LatestOfRows(table, id, rows);
      UpdatedOn(rows, MaxUpdated(rows))
  }

  /** The rows of a state updated on its latest day are its latest rows. */
  lemma LatestOfRows(table: seq<StateRt>, id: int, rows: seq<StateRt>)
    requires rows == RowsOfState(table, id) && rows != []
    ensures forall r :: r in UpdatedOn(rows, MaxUpdated(rows)) <==> IsLatestStateRow(table, id, r)
    ensures UpdatedOn(rows, MaxUpdated(rows)) != []
    ensures forall r :: multiset(UpdatedOn(rows, MaxUpdated(rows)))[r]
                        == if IsLatestStateRow(table, id, r) then multiset(table)[r] else 0
  {
    var m := MaxUpdated(rows);
    var i :| 0 <= i < |rows| && rows[i].lastUpdated == m;
    assert rows[i] in UpdatedOn(rows, m);
    forall q | q in table && q.stateNumId == id
      ensures q.lastUpdated <= m
    {
      assert q in rows;
    }
  }

  /**
   * The reproduction numbers taken from the state table, or `None` when the
   * state has no row: non-empty columns of equal length, each (most likely,
   * upper bound) pair taken from one of the state's latest rows.
   */
  function StateFallback(table: seq<StateRt>, id: int): (o: Option<R0Bounds>)
    ensures o.None? <==> forall r :: r in table ==> r.stateNumId != id
    ensures o.Some? ==>
              o.value == R0Bounds(LatestRows(MostLikelyOf(LatestStateRows(table, id))),
                                  LatestRows(High95Of(LatestStateRows(table, id))))
    ensures o.Some? ==> LatestPairs(table, id, o.value)
  {
    var sel := LatestStateRows(table, id);
    if sel == [] then None
    else
      var b := R0Bounds(LatestRows(MostLikelyOf(sel)), LatestRows(High95Of(sel)));
      assert LatestPairs(table, id, b) by {
        forall k | 0 <= k < |b.best.values|
          ensures exists r :: IsLatestStateRow(table, id, r)
                              && r.rtMostLikely == b.best.values[k] && r.rtHigh95 == b.worst.values[k]
        {
          assert sel[k] in sel;
        }
      }
      Some(b)
  }

  /** Both columns are non-empty and of one length, each pair from a latest row of the state. */
  ghost predicate LatestPairs(table: seq<StateRt>, id: int, b: R0Bounds) {
    && b.best.LatestRows? && b.worst.LatestRows?
    && |b.best.values| == |b.worst.values| > 0
    && forall k :: 0 <= k < |b.best.values| ==>
         exists r :: IsLatestStateRow(table, id, r)
                     && r.rtMostLikely == b.best.values[k] && r.rtHigh95 == b.worst.values[k]
  }

  // ---------------------------------------------------------------------------
  // The gate shared by both versions of `prepare_simulation`

  const HealthRegionId: string := "health_region_id"

  /**
   * After the parameters are built: `None` is "no projection" (NaN or zero
   * notification rate, or no Rt at any level), otherwise the R0 bounds to use.
   */
  function Projection(row: FarolRow, placeId: string, table: seq<StateRt>): (o: Option<R0Bounds>)
    ensures !NotificationUsable(row) ==> o == None
    ensures NotificationUsable(row) && row.rtMostLikely.Some? ==>
              o == Some(R0Bounds(RowValue(row.rtMostLikely), RowValue(row.rtHigh95)))
    ensures NotificationUsable(row) && row.rtMostLikely.None? && placeId != HealthRegionId ==> o == None
    ensures NotificationUsable(row) && row.rtMostLikely.None? && placeId == HealthRegionId ==>
              o == StateFallback(table, row.stateNumId)
  {
    if row.notificationRate.None? then None
    else if row.notificationRate.value == 0.0 then None
    else if row.rtMostLikely.None? then
      if placeId == HealthRegionId then StateFallback(table, row.stateNumId) else None
    else Some(R0Bounds(RowValue(row.rtMostLikely), RowValue(row.rtHigh95)))
  }

  /**
   * A projection uses either the row's own Rt, or a non-empty column of
   * state-level pairs (most likely, upper bound), each taken from one row of
   * the row's state updated last.
   */
  lemma ProjectionSource(row: FarolRow, placeId: string, table: seq<StateRt>)
    requires Projection(row, placeId, table).Some?
    ensures var b := Projection(row, placeId, table).value;
            || (row.rtMostLikely.Some? && b.best == RowValue(row.rtMostLikely)
                && b.worst == RowValue(row.rtHigh95))
            || (row.rtMostLikely.None? && placeId == HealthRegionId && LatestPairs(table, row.stateNumId, b))
  {
  }

  // ---------------------------------------------------------------------------
  // prepare_simulation

  /** The place-specific parameters handed to the model. */
  datatype PlaceValues = PlaceValues(fatalityRatio: real, i0: real, i1: real, i2: real, i3: real, rt: Option<real>)

  /** The simulator's parameters: population, place values, bed counts and R0 bounds. */
  class Params {
    const population: Population
    const place: PlaceValues
    const nBeds: Option<real>
    const nIcuBeds: Option<real>
    var r0: R0Bounds

    constructor (population: Population, place: PlaceValues, nBeds: Option<real>, nIcuBeds: Option<real>, r0: R0Bounds)
      ensures this.population == population && this.place == place
      ensures this.nBeds == nBeds && this.nIcuBeds == nIcuBeds && this.r0 == r0
    {
      this.population := population;
      this.place := place;
      this.nBeds := nBeds;
      this.nIcuBeds := nIcuBeds;
      this.r0 := r0;
    }
  }

  /** A bed count scaled by the available share; NaN stays NaN. */
  function Available(beds: Option<real>, proportion: real): (a: Option<real>)
    ensures a.Some? <==> beds.Some?
    ensures a.Some? ==> a.value == beds.value * proportion
  {
    match beds
    case None => None
    case Some(b) => Some(b * proportion)
  }

  /** Deaths with NaN read as 0. */
  function DeathsOrZero(row: FarolRow): (d: int)
    ensures row.deaths.None? ==> d == 0
    ensures row.deaths.Some? ==> d == Trunc(row.deaths.value)
  {
    match row.deaths
    case None => 0
    case Some(x) => Trunc(x)
  }

  /**
   * `prepare_simulation`: builds the parameters (where `int()` of a NaN
   * population or active-case count raises), then applies the gate, then
   * estimates the recovered. The state Rt table is an input.
   */
  method PrepareSimulation(
    row: FarolRow, placeId: string, resourcesAvailableProportion: real,
    rates: PlaceRates, stateRt: seq<StateRt>)
    returns (out: Preparation<Params>)
    ensures out.ConversionError? <==> row.population.None? || row.activeCases.None?
    ensures row.population.Some? && row.activeCases.Some? ==>
              (out.NoProjection? <==> Projection(row, placeId, stateRt).None?)
    ensures out.Ready? ==>
              var p := out.params;
              && fresh(p) && fresh(p.population)
              && p.r0 == Projection(row, placeId, stateRt).value
              && p.population.N == Trunc(row.population.value)
              && p.population.I == Trunc(row.activeCases.value)
              && p.population.D == DeathsOrZero(row)
              && p.population.R == Some(RecoveredEstimate(ConfirmedAdjusted(row), p.population.I, p.population.D))
              && p.place == PlaceValues(rates.fatalityRatio, rates.i0, rates.i1, rates.i2, rates.i3, row.rtMostLikely)
              && p.nBeds == Available(row.numberBeds, resourcesAvailableProportion)
              && p.nIcuBeds == Available(row.numberIcuBeds, resourcesAvailableProportion)
  {
    if row.population.None? || row.activeCases.None? {
      return ConversionError;
    }
    var pop := new Population(Trunc(row.population.value), Trunc(row.activeCases.value), DeathsOrZero(row));
    var params := new Params(
      pop,
      PlaceValues(rates.fatalityRatio, rates.i0, rates.i1, rates.i2, rates.i3, row.rtMostLikely),
      Available(row.numberBeds, resourcesAvailableProportion),
      Available(row.numberIcuBeds, resourcesAvailableProportion),
      R0Bounds(RowValue(row.rtMostLikely), RowValue(row.rtHigh95)));

    if row.notificationRate.None? {
      return NoProjection;
    }
    if row.notificationRate.value == 0.0 {
      return NoProjection;
    }

    if row.rtMostLikely.None? {
      if placeId != HealthRegionId {
        return NoProjection;
      }
      var fallback := StateFallback(stateRt, row.stateNumId);
      if fallback.None? {
        return NoProjection;
      }
      params.r0 := fallback.value;
    }

    CalculateRecovered(row, params.population);
    return Ready(params);
  }
}
