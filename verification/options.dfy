/** The optional value used for data the bucket may not have yet and for
    taking from an empty queue. */
module Options {

  datatype Option<+T> = None | Some(value: T)
}
