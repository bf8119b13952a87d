/**
 * `run_simulation` of the older version: a single model entrypoint (the
 * SEIR model, not part of this model, so a parameter here) is run for the
 * worst and the best reproduction number, and each frame is renumbered
 * from 1. There is no "model" column and no choice of model.
 */
module LegacySimulator {
  import opened Common
  import opened Frames
  import Prepare
  import LegacyPrepare
  import Seapmdr
  import Capacity
  import Simulator

  /** The positional and keyword arguments of one entrypoint call. */
  datatype LegacyCall = LegacyCall(
    population: Simulator.PopulationSnapshot, place: LegacyPrepare.LegacyRates, disease: Seapmdr.DiseaseParams,
    scenario: string, r0: Prepare.RtEstimate, nDays: nat, initial: bool)

  /** The arguments packed for one scenario. */
  function CallFor(pop: Simulator.PopulationSnapshot, place: LegacyPrepare.LegacyRates, disease: Seapmdr.DiseaseParams,
                   r0: Prepare.R0Bounds, bound: string): (c: LegacyCall)
    ensures c.nDays == Simulator.ProjectionDays && c.initial && c.scenario == Simulator.ProjectionScenario
    ensures c.population == pop && c.place == place && c.disease == disease
    ensures bound == "worst" ==> c.r0 == r0.worst
    ensures bound == "best" ==> c.r0 == r0.best
  {
    LegacyCall(pop, place, disease, Simulator.ProjectionScenario,
               if bound == "worst" then r0.worst else r0.best, Simulator.ProjectionDays, true)
  }

  /**
   * One renumbered frame per scenario, each the entrypoint's result for that
   * scenario's reproduction number.
   */
  method RunSimulation(params: LegacyPrepare.LegacyParams, disease: Seapmdr.DiseaseParams,
                       entrypoint: LegacyCall -> Frame)
    returns (dfs: map<string, Frame>)
    ensures dfs.Keys == {"worst", "best"}
    ensures forall b :: b in dfs ==>
              var pop := Simulator.PopulationSnapshot(params.population.N, params.population.I,
                                            params.population.D, params.population.R);
              dfs[b] == Reindexed(entrypoint(CallFor(pop, params.place, disease, params.r0, b)))
  {
    var pop := Simulator.PopulationSnapshot(params.population.N, params.population.I, params.population.D, params.population.R);
    var bounds := Capacity.Cases;
    dfs := map[];
    for i := 0 to |bounds|
      invariant dfs.Keys == set j | 0 <= j < i :: bounds[j]
      invariant forall b :: b in dfs ==>
                  dfs[b] == Reindexed(entrypoint(CallFor(pop, params.place, disease, params.r0, b)))
    {
      var bound := bounds[i];
      var res := entrypoint(CallFor(pop, params.place, disease, params.r0, bound));
      dfs := dfs[bound := Reindexed(res)];
    }
    assert dfs.Keys == {"worst", "best"} by {
      assert bounds[0] == "worst" && bounds[1] == "best";
    }
  }

  /**
   * A renumbered frame keeps the entrypoint's columns and labels, and its
   * d-day for any demand column is -1 or a day number from 1 to its length.
   */
  lemma RenumberedDday(res: Frame, col: string, resource: Option<real>)
    requires WellFormed(res) && col in res.numeric && |res.numeric[col]| > 0
    ensures var f := Reindexed(res);
            && WellFormed(f) && f.labels == res.labels
            && Capacity.Dday(f, col, resource).Success?
            && var d := Capacity.Dday(f, col, resource).value;
               d == -1 || 1 <= d <= |res.index|
  {
    Capacity.DdayMeaning(Reindexed(res), col, resource);
  }
}
