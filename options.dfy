/** Absent/present values, standing for java.util.Optional and for nullable references. */
module Options {

  datatype Option<+T> = None | Some(value: T)

  /** The set holding the present value, or the empty set. */
  function Elements<T>(o: Option<T>): set<T>
  {
    match o
    case None => {}
    case Some(v) => {v}
  }
}
