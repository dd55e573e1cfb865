/** The optional value used wherever the source has `None`, `False` or a
    missing dictionary entry in place of a value. */
module Optional {

  datatype Option<T> = None | Some(value: T)
}
