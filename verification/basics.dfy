/** Values shared by every module. */
module Basics {

  datatype Option<+T> = None | Some(value: T)

  /** What a store write or a command reports; the storage sentinels plus the command errors built on them. */
  datatype Error =
    | NoError
    | ErrNotFound
    | ErrConflict
    | ErrInsufficient
    | ErrInvalid
    | ErrParkUnsupported

  lemma SmallerSet<T>(a: set<T>, b: set<T>)
    requires a <= b
    ensures |a| <= |b|
  {
    assert b == a + (b - a);
  }
}
