/** An optional value: `None` stands for a field that is `undefined` or `null`. */
module Options {

  datatype Option<+T> = None | Some(value: T)

}
