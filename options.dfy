/** The optional value that Python spells `None` or a plain value. */
module Options {

  datatype Option<+T> = None | Some(value: T)

}
