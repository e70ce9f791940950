/** List helpers shared by the row filters: Python's `list.index` and the
    selection of rows by a list of indices (`[xs[i] for i in idx]`, numpy's
    `a[idx, :]`). */
module Lists {
  import opened Wrappers

  /** `xs.index(x)`: the first position holding `x`, or ValueError. */
  function Find<T(==)>(xs: seq<T>, x: T): (r: Result<nat>)
    ensures r.Ok? <==> x in xs
    ensures r.Ok? ==> r.value < |xs| && xs[r.value] == x && x !in xs[..r.value]
    ensures r.Err? ==> r.message == "ValueError"
    decreases |xs|
  {
    if |xs| == 0 then Err("ValueError")
    else if xs[0] == x then Ok(0)
    else
      match Find(xs[1..], x)
      case Err(e) => Err(e)
      case Ok(i) =>
        assert xs[..i + 1] == [xs[0]] + xs[1..][..i];
        Ok(i + 1)
  }

  /** Every index points into `xs`. */
  predicate InRange<T>(xs: seq<T>, idx: seq<nat>) {
    forall k :: 0 <= k < |idx| ==> idx[k] < |xs|
  }

  /** `[xs[i] for i in idx]`. */
  function Gather<T>(xs: seq<T>, idx: seq<nat>): seq<T>
    requires InRange(xs, idx)
  {
    seq(|idx|, k requires 0 <= k < |idx| => xs[idx[k]])
  }

  /** Selecting one more index appends that element. */
  lemma {:induction false} GatherAppend<T>(xs: seq<T>, idx: seq<nat>, j: nat)
    requires InRange(xs, idx) && j < |xs|
    ensures InRange(xs, idx + [j]) && Gather(xs, idx + [j]) == Gather(xs, idx) + [xs[j]]
  {
  }

  /** Strictly increasing indices: a selection that keeps the input order
      and takes no element twice. */
  predicate Increasing(idx: seq<nat>) {
    forall a, b :: 0 <= a < b < |idx| ==> idx[a] < idx[b]
  }
}
