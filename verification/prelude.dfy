// Small value types shared by every module.

module Prelude {

  /** SQL NULL and JavaScript null/undefined are modelled as None. */
  datatype Option<+T> = None | Some(value: T)

  function Max(a: int, b: int): int {
    if a < b then b else a
  }

  // Does a statement without tenant condition, in a transaction of txTenant, meet a row of rowTenant? It
  // does if the row is the tenant's, or if row security does not filter the connection (rls).
  predicate Reaches(rls: bool, txTenant: nat, rowTenant: nat) {
    rls ==> rowTenant == txTenant
  }
}
