// What the worker passes have in common: a loop that takes the listed rows of a table one at a time, each by itself.
module Passes {
  predicate Distinct(ids: seq<nat>) {
    forall i, j :: 0 <= i < j < |ids| ==> ids[i] != ids[j]
  }

  // The first k listed rows are as `after` makes them of their findings; all other rows are as they were.
  ghost predicate Progress<P, F>(before: map<nat, P>, now: map<nat, P>, due: seq<nat>, fs: seq<F>, after: (P, F) -> P, k: nat) {
    && k <= |due| == |fs|
    && now.Keys == before.Keys
    && (forall i :: 0 <= i < |due| ==>
          due[i] in before && now[due[i]] == if i < k then after(before[due[i]], fs[i]) else before[due[i]])
    && (forall id :: id in before && id !in due ==> now[id] == before[id])
  }

  // Taking the next row by itself is progress.
  lemma {:induction false} ProgressStep<P, F>(before: map<nat, P>, now: map<nat, P>, due: seq<nat>, fs: seq<F>, after: (P, F) -> P, k: nat)
    requires Progress(before, now, due, fs, after, k) && k < |due| && Distinct(due)
    ensures due[k] in now && now[due[k]] == before[due[k]]
    ensures Progress(before, now[due[k] := after(before[due[k]], fs[k])], due, fs, after, k + 1)
  {
  }
}
