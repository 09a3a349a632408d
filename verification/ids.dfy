/** Minting identities no row has yet. */
module Ids {

  method Fresh(used: set<nat>) returns (id: nat)
    ensures id !in used
  {
    id := 0;
    ghost var left := used;
    while id in used
      invariant left <= used
      invariant forall x :: x in used && x >= id ==> x in left
      decreases left
    {
      left := left - {id};
      id := id + 1;
    }
  }
}
