/** Rust's `Option<T>`, used for folded constants, change reports and `num()`. */
module Options {

  datatype Option<+T> = None | Some(value: T)

}
