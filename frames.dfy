/**
 * A pandas DataFrame as a value: an index of row labels, numeric columns by
 * name and constant text columns (the "scenario" and "model" tags).
 */
module Frames {

  datatype Frame = Frame(index: seq<int>, numeric: map<string, seq<real>>, labels: map<string, string>)

  /** Every numeric column has one value per index label. */
  predicate WellFormed(f: Frame) {
    forall c :: c in f.numeric ==> |f.numeric[c]| == |f.index|
  }

  /** The labels `lo, lo+1, ..., lo+n-1` (a pandas RangeIndex). */
  function Range(lo: int, n: nat): (r: seq<int>)
    ensures |r| == n
    ensures forall i :: 0 <= i < n ==> r[i] == lo + i
  {
    if n == 0 then [] else Range(lo, n - 1) + [lo + n - 1]
  }

  /** `res.reset_index(drop=True)` followed by `res.index += 1`: rows are numbered from 1. */
  function Reindexed(f: Frame): (g: Frame)
    ensures |g.index| == |f.index| && g.numeric == f.numeric && g.labels == f.labels
    ensures forall i :: 0 <= i < |g.index| ==> g.index[i] == i + 1
    ensures WellFormed(f) ==> WellFormed(g)
  {
    f.(index := Range(1, |f.index|))
  }

  /** `res[name] = value` for a constant text column. */
  function WithLabel(f: Frame, name: string, value: string): (g: Frame)
    ensures g.index == f.index && g.numeric == f.numeric
    ensures g.labels.Keys == f.labels.Keys + {name} && g.labels[name] == value
    ensures forall c :: c in f.labels && c != name ==> g.labels[c] == f.labels[c]
  {
    f.(labels := f.labels[name := value])
  }
}
