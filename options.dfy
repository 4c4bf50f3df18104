// Swift optionals (`T?`): nil or a wrapped value.
module Options {
  datatype Option<T> = None | Some(value: T)
}
