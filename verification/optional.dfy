/** The result of a lookup: `Some(index)` when something was found, `None` when nothing was. */
module Optional {

  datatype Option<+T> = None | Some(value: T)
}
