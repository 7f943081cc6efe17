/** An optional value: the model of TypeScript's optional fields and of `null`. */
module Options {
  datatype Option<+T> = None | Some(value: T)
}
