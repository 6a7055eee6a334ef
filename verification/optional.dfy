/** The usual Some/None datatype, used for the optional arguments of the
    client's facade methods and for partial parsers. */
module Optional {

  datatype Option<+T> = None | Some(value: T)

  /** 1 when the option holds a value, 0 otherwise. */
  function Present<T>(o: Option<T>): nat
  {
    if o.Some? then 1 else 0
  }
}
