/** Rust's `Option<T>`: used by the fixtures as a receiver value and by the
    rule family for "no rule binds". */
module Options {
  datatype Option<+T> = None | Some(value: T)
}
