/** A value that may be absent: how the model writes a step parameter that is
    still `None`. */
module Optional {

  datatype Option<T> = None | Some(value: T)
}
