/** The optional value used where the source has `undefined` or a failed `find`. */
module Options {

  datatype Option<T> = None | Some(value: T)

}
