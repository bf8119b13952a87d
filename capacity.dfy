/**
 * `get_dday`: for the worst and the best scenario, the label of the first
 * projected day on which a demand column (severe or critical cases) goes
 * above the available beds, or -1 when it never does. The same function
 * appears in both versions of the simulator.
 */
module Capacity {
  import opened Common
  import opened Frames

  /** The two scenarios, in the order the code visits them. */
  const Cases: seq<string> := ["worst", "best"]

  datatype DdayError =
    | MissingCase(name: string)     // `dfs[case]` raises KeyError
    | MissingColumn(column: string) // `df[col]` raises KeyError
    | EmptyColumn                   // `max()` of an empty column raises ValueError

  /** `v > resource_number`; a NaN resource is never exceeded. */
  predicate Exceeds(v: real, resource: Option<real>) {
    resource.Some? && v > resource.value
  }

  /** Python's `max` of a non-empty column of numbers. */
  function Max(s: seq<real>): (m: real)
    requires |s| > 0
    ensures exists i :: 0 <= i < |s| && s[i] == m
    ensures forall i :: 0 <= i < |s| ==> s[i] <= m
  {
    if |s| == 1 then s[0]
    else
      var rest := Max(s[1..]);
      assert forall i :: 1 <= i < |s| ==> s[i] == s[1..][i - 1];
      if s[0] >= rest then s[0] else rest
  }

  /** The maximum exceeds the resource exactly when some value does. */
  lemma MaxExceeds(s: seq<real>, resource: Option<real>)
    requires |s| > 0
    ensures Exceeds(Max(s), resource) <==> exists i :: 0 <= i < |s| && Exceeds(s[i], resource)
  {
  }

  /**
   * The position of the first value from `from` on that exceeds the
   * resource: the first row of `df[df[col] > resource_number]`.
   */
  function FirstAbove(s: seq<real>, resource: Option<real>, from: nat): (k: Option<nat>)
    requires from <= |s|
    ensures k.Some? ==> from <= k.value < |s| && Exceeds(s[k.value], resource)
    ensures k.Some? ==> forall j :: from <= j < k.value ==> !Exceeds(s[j], resource)
    ensures k.None? ==> forall j :: from <= j < |s| ==> !Exceeds(s[j], resource)
    decreases |s| - from
  {
    if from == |s| then None
    else if Exceeds(s[from], resource) then Some(from)
    else FirstAbove(s, resource, from + 1)
  }

  /** The d-day of one scenario's frame. */
  function Dday(f: Frame, col: string, resource: Option<real>): (r: Result<int, DdayError>)
    requires WellFormed(f)
    ensures r.Failure? <==> col !in f.numeric || |f.numeric[col]| == 0
    ensures col !in f.numeric ==> r == Failure(MissingColumn(col))
    ensures col in f.numeric && |f.numeric[col]| == 0 ==> r == Failure(EmptyColumn)
    ensures r.Success? && FirstAbove(f.numeric[col], resource, 0).Some? ==>
              r.value == f.index[FirstAbove(f.numeric[col], resource, 0).value]
    ensures r.Success? && FirstAbove(f.numeric[col], resource, 0).None? ==> r.value == -1
  {
    if col !in f.numeric then Failure(MissingColumn(col))
    else
      var values := f.numeric[col];
      if |values| == 0 then Failure(EmptyColumn)
      else
        MaxExceeds(values, resource);
        if Exceeds(Max(values), resource) then Success(f.index[FirstAbove(values, resource, 0).value])
        else Success(-1)
  }

  /**
   * On a frame whose rows are numbered from 1 (as the simulator returns
   * them), the d-day is -1 exactly when the demand never exceeds the
   * resource, and otherwise it is k + 1 for the first row k that does, so
   * it is at least 1.
   */
  lemma DdayMeaning(f: Frame, col: string, resource: Option<real>)
    requires WellFormed(f) && col in f.numeric && |f.numeric[col]| > 0
    requires forall i :: 0 <= i < |f.index| ==> f.index[i] == i + 1
    ensures var s := f.numeric[col];
            var d := Dday(f, col, resource).value;
            && (d == -1 <==> forall i :: 0 <= i < |s| ==> !Exceeds(s[i], resource))
            && (d != -1 ==> 1 <= d <= |s| && Exceeds(s[d - 1], resource)
                            && forall j :: 0 <= j < d - 1 ==> !Exceeds(s[j], resource))
  {
    var s := f.numeric[col];
    MaxExceeds(s, resource);
    if Exceeds(Max(s), resource) {
      var k := FirstAbove(s, resource, 0);
      assert k.Some?;
      assert Dday(f, col, resource).value == k.value + 1;
    }
  }

  /** A larger resource never brings the d-day of a row-numbered frame earlier. */
  lemma DdayMonotone(f: Frame, col: string, low: real, high: real)
    requires WellFormed(f) && col in f.numeric && |f.numeric[col]| > 0
    requires forall i :: 0 <= i < |f.index| ==> f.index[i] == i + 1
    requires low <= high
    ensures var dl := Dday(f, col, Some(low)).value;
            var dh := Dday(f, col, Some(high)).value;
            dh == -1 || (dl != -1 && dl <= dh)
  {
    DdayMeaning(f, col, Some(low));
    DdayMeaning(f, col, Some(high));
    var s := f.numeric[col];
    var dh := Dday(f, col, Some(high)).value;
    if dh != -1 {
      assert Exceeds(s[dh - 1], Some(low));
    }
  }

  /** The error `get_dday` raises on scenario `name`, if any. */
  function CaseError(dfs: map<string, Frame>, col: string, resource: Option<real>, name: string): Option<DdayError>
    requires forall c :: c in dfs ==> WellFormed(dfs[c])
  {
    if name !in dfs then Some(MissingCase(name))
    else
      var d := Dday(dfs[name], col, resource);
      if d.Failure? then Some(d.error) else None
  }

  /** `get_dday`: one d-day per scenario, or the first error raised. */
  method GetDday(dfs: map<string, Frame>, col: string, resource: Option<real>)
    returns (r: Result<map<string, int>, DdayError>)
    requires forall c :: c in dfs ==> WellFormed(dfs[c])
    ensures r.Success? <==> CaseError(dfs, col, resource, "worst").None? && CaseError(dfs, col, resource, "best").None?
    ensures r.Failure? ==>
              r.error == (if CaseError(dfs, col, resource, "worst").Some?
                          then CaseError(dfs, col, resource, "worst").value
                          else CaseError(dfs, col, resource, "best").value)
    ensures r.Success? ==>
              && r.value.Keys == {"worst", "best"}
              && forall c :: c in r.value ==> c in dfs && r.value[c] == Dday(dfs[c], col, resource).value
  {
    var dday: map<string, int> := map[];
    for i := 0 to |Cases|
      invariant dday.Keys == set j | 0 <= j < i :: Cases[j]
      invariant forall j :: 0 <= j < i ==> CaseError(dfs, col, resource, Cases[j]).None?
      invariant forall c :: c in dday ==> c in dfs && dday[c] == Dday(dfs[c], col, resource).value
    {
      var name := Cases[i];
      assert name == (if i == 0 then "worst" else "best");
      assert i == 1 ==> CaseError(dfs, col, resource, "worst").None? by {
        assert Cases[0] == "worst";
      }
      if name !in dfs {
        assert CaseError(dfs, col, resource, name) == Some(MissingCase(name));
        return Failure(MissingCase(name));
      }
      var d := Dday(dfs[name], col, resource);
      if d.Failure? {
        assert CaseError(dfs, col, resource, name) == Some(d.error);
        return Failure(d.error);
      }
      dday := dday[name := d.value];
    }
    assert dday.Keys == {"worst", "best"} by {
      assert Cases[0] == "worst" && Cases[1] == "best";
    }
    return Success(dday);
  }
}
