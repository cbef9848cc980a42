/** An optional value: `None` stands for a result the model leaves undefined. */
module Options {

  datatype Option<+T> = None | Some(value: T)
}
