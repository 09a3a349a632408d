/** Dimensioned integer capacity and the allocation arithmetic over it. */
module Capacity {

  /** Capacity per dimension; a dimension that is absent is not tracked. */
  type Vector = map<string, nat>

  /** Reading an absent dimension of a used or wanted vector gives zero. */
  function At(v: Vector, dim: string): nat {
    if dim in v then v[dim] else 0
  }

  function Plus(v: Vector, w: Vector): (sum: Vector)
    ensures forall dim :: At(sum, dim) == At(v, dim) + At(w, dim)
  {
    map dim | dim in v.Keys + w.Keys :: At(v, dim) + At(w, dim)
  }

  /** A requested dimension must be tracked, and what is left of it must cover the request. */
  predicate Fits(total: Vector, used: Vector, want: Vector) {
    forall dim <- want.Keys :: dim in total && total[dim] - At(used, dim) >= want[dim]
  }
}
