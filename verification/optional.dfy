/** An optional value: a field left out of an options object, an absent
    in-flight response, an error that may or may not be reported. */
module Optional {

  datatype Option<+T> = None | Some(value: T)

}
