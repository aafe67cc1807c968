/** `HelperMixin.validate`: every declared column against its declared type,
    in column order, failing on the first mismatch. */
module Validation {
  import opened Values
  import opened TypeCheck

  /** Column `i` of `e` holds a value its declared type accepts. */
  predicate ColumnOk(e: Entity, i: int)
    requires 0 <= i < |e.columns|
  {
    TypeCompatible(Get(e, e.columns[i].name), e.columns[i].ty)
  }

  /** Every declared column holds a compatible value. */
  predicate Valid(e: Entity)
  {
    forall i :: 0 <= i < |e.columns| ==> ColumnOk(e, i)
  }

  /** The exception raised for column `i`. */
  function Rejection(e: Entity, i: int): Error
    requires 0 <= i < |e.columns|
  {
    InvalidParameter(e.columns[i].name, Get(e, e.columns[i].name), e.columns[i].ty)
  }

  /** Passes exactly when the entity is valid; otherwise fails with the
      `InvalidParameter` of the first incompatible column. */
  method Validate(e: Entity) returns (r: Outcome)
    ensures r.Pass? <==> Valid(e)
    ensures r.Fail? ==> exists i :: 0 <= i < |e.columns| && !ColumnOk(e, i) && r.error == Rejection(e, i)
                                   && forall j :: 0 <= j < i ==> ColumnOk(e, j)
  {
    var columns := e.columns;
    for i := 0 to |columns|
      invariant forall j :: 0 <= j < i ==> ColumnOk(e, j)
    {
      var column := columns[i];
      var value := Get(e, column.name);
      if !TypeCompatible(value, column.ty) {
        assert !ColumnOk(e, i);
        return Fail(InvalidParameter(column.name, value, column.ty));
      }
    }
    return Pass;
  }

  /** The failure `Validate` reports is determined: two columns that are each
      the first incompatible one are the same column. */
  lemma FirstRejectionUnique(e: Entity, i: int, k: int)
    requires 0 <= i < |e.columns| && 0 <= k < |e.columns|
    requires !ColumnOk(e, i) && forall j :: 0 <= j < i ==> ColumnOk(e, j)
    requires !ColumnOk(e, k) && forall j :: 0 <= j < k ==> ColumnOk(e, j)
    ensures i == k && Rejection(e, i) == Rejection(e, k)
  {
  }
}
