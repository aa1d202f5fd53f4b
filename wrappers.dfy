/** Values that JavaScript may leave absent. */
module Wrappers {

  /** `None` stands for an absent value, `Some(v)` for a present value `v`.
      Where the source compares loosely (`!= null`, truthiness) `None` covers
      both `null` and `undefined`; where it compares strictly with `null`,
      the field's documentation says that `None` is `null` only. */
  datatype Option<+T> = None | Some(value: T)
}
