/**
 * `run_simulation`: runs the chosen model once per scenario (worst and
 * best reproduction number) for 90 days from the prepared parameters, and
 * returns one frame per scenario with its rows numbered from 1 and a
 * "model" column. The model entrypoints are parameters: the
 * compartmental model of `Seapmdr` is one of them, the SEIR model is not
 * part of this model.
 */
module Simulator {
  import opened Common
  import opened Frames
  import opened Prepare
  import Seapmdr
  import Capacity

  /** Length of every projection, in days. */
  const ProjectionDays: nat := 90

  /** Scenario name written into every phase. */
  const ProjectionScenario: string := "projection_current_rt"

  /** The population values as the dict holds them when a model is called. */
  datatype PopulationSnapshot = PopulationSnapshot(N: int, I: int, D: int, R: Option<int>)

  /** The keyword arguments of one entrypoint call. */
  datatype ModelCall = ModelCall(
    population: PopulationSnapshot, place: PlaceValues, disease: Seapmdr.DiseaseParams,
    scenario: string, r0: RtEstimate, nDays: nat, initial: bool)

  datatype Model = SeirModel | SeapmdrModel

  datatype SimulationError = UnboundResult(model: string) // neither branch ran, so `res` is unbound

  /** The entrypoint a model name selects, after upper-casing. */
  function Selected(model: string): (m: Option<Model>)
    ensures m == Some(SeirModel) <==> Upper(model) == "SEIR"
    ensures m == Some(SeapmdrModel) <==> Upper(model) == "SEAPMDR"
    ensures m.None? <==> Upper(model) != "SEIR" && Upper(model) != "SEAPMDR"
  {
    var u := Upper(model);
    if u == "SEIR" then Some(SeirModel) else if u == "SEAPMDR" then Some(SeapmdrModel) else None
  }

  /** The choice of model does not depend on the case of its name. */
  lemma SelectionIgnoresCase(model: string)
    ensures Selected(Upper(model)) == Selected(model)
  {
    UpperIdempotent(model);
  }

  /** "seapmdr" selects the compartmental model and "sir" selects nothing. */
  lemma SeapmdrSpellings()
    ensures Selected("seapmdr") == Some(SeapmdrModel)
    ensures Selected("sir").None?
  {
    UpperIs("seapmdr", "SEAPMDR");
    UpperIs("sir", "SIR");
  }

  lemma UpperIs(s: string, u: string)
    requires |s| == |u| && forall i :: 0 <= i < |s| ==> UpperChar(s[i]) == u[i]
    ensures Upper(s) == u
  {
  }

  /** The reproduction number of one scenario. */
  function Bound(r0: R0Bounds, bound: string): RtEstimate {
    if bound == "worst" then r0.worst else r0.best
  }

  /** The arguments `run_simulation` packs for one scenario. */
  function CallFor(pop: PopulationSnapshot, place: PlaceValues, disease: Seapmdr.DiseaseParams,
                   r0: R0Bounds, bound: string): (c: ModelCall)
    ensures c.nDays == ProjectionDays && c.initial && c.scenario == ProjectionScenario
    ensures c.population == pop && c.place == place && c.disease == disease
    ensures bound == "worst" ==> c.r0 == r0.worst
    ensures bound == "best" ==> c.r0 == r0.best
  {
    ModelCall(pop, place, disease, ProjectionScenario, Bound(r0, bound), ProjectionDays, true)
  }

  /** The frame of one scenario: renumbered from 1 and tagged with the model name. */
  function Shaped(res: Frame, upperModel: string): (f: Frame)
    ensures f.numeric == res.numeric && |f.index| == |res.index|
    ensures forall i :: 0 <= i < |f.index| ==> f.index[i] == i + 1
    ensures f.labels == res.labels["model" := upperModel]
  {
    WithLabel(Reindexed(res), "model", upperModel)
  }

  /**
   * `run_simulation` with the two entrypoints as parameters.
   */
  method RunSimulation(
    params: Params, disease: Seapmdr.DiseaseParams, model: string,
    seir: ModelCall -> Frame, seapmdr: ModelCall -> Frame)
    returns (r: Result<map<string, Frame>, SimulationError>)
    ensures r.Failure? <==> Selected(model).None?
    ensures r.Failure? ==> r.error == UnboundResult(Upper(model))
    ensures r.Success? ==>
              var pop := PopulationSnapshot(params.population.N, params.population.I, params.population.D, params.population.R);
              var entry: ModelCall -> Frame := if Selected(model) == Some(SeirModel) then seir else seapmdr;
              && r.value.Keys == {"worst", "best"}
              && forall b :: b in r.value ==>
                   r.value[b] == Shaped(entry(CallFor(pop, params.place, disease, params.r0, b)), Upper(model))
  {
    var m := Upper(model);
    var pop := PopulationSnapshot(params.population.N, params.population.I, params.population.D, params.population.R);
    var bounds := Capacity.Cases;
    ghost var entry: ModelCall -> Frame := if Selected(model) == Some(SeirModel) then seir else seapmdr;
    var dfs: map<string, Frame> := map[];
    for i := 0 to |bounds|
      invariant dfs.Keys == set j | 0 <= j < i :: bounds[j]
      invariant Selected(model).Some? || i == 0
      invariant forall b :: b in dfs ==>
                  dfs[b] == Shaped(entry(CallFor(pop, params.place, disease, params.r0, b)), m)
    {
      var bound := bounds[i];
      var call := CallFor(pop, params.place, disease, params.r0, bound);
      var res: Frame;
      if m == "SEIR" {
        assert entry == seir;
        res := seir(call);
      } else if m == "SEAPMDR" {
        assert entry == seapmdr;
        res := seapmdr(call);
      } else {
        return Failure(UnboundResult(m));
      }
      dfs := dfs[bound := Shaped(res, m)];
    }
    assert dfs.Keys == {"worst", "best"} by {
      assert bounds[0] == "worst" && bounds[1] == "best";
    }
    return Success(dfs);
  }

  /**
   * Every simulated frame keeps the entrypoint's columns, numbers its rows
   * from 1 and carries the model name in upper case.
   */
  lemma ShapedFrame(res: Frame, model: string)
    ensures var f := Shaped(res, Upper(model));
            && f.numeric == res.numeric && |f.index| == |res.index|
            && (forall i :: 0 <= i < |f.index| ==> f.index[i] == i + 1)
            && "model" in f.labels && f.labels["model"] == Upper(model)
            && (forall i :: 0 <= i < |f.labels["model"]| ==> !('a' <= f.labels["model"][i] <= 'z'))
            && (WellFormed(res) ==> WellFormed(f))
  {
    UpperIdempotent(model);
  }

  /**
   * On a simulated frame, the d-day of any demand column is -1 (never
   * exceeded) or a day number between 1 and the number of rows.
   */
  lemma SimulatedDday(res: Frame, model: string, col: string, resource: Option<real>)
    requires WellFormed(res) && col in res.numeric && |res.numeric[col]| > 0
    ensures var f := Shaped(res, Upper(model));
            && WellFormed(f)
            && Capacity.Dday(f, col, resource).Success?
            && var d := Capacity.Dday(f, col, resource).value;
               d == -1 || 1 <= d <= |res.index|
  {
    var f := Shaped(res, Upper(model));
    ShapedFrame(res, model);
    Capacity.DdayMeaning(f, col, resource);
  }
}
