/** The absent-or-present value used for `null` fields and for results
    that JavaScript would report as NaN. */
module Options {

  datatype Option<T> = None | Some(value: T)

}
