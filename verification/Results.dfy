/** The optional value used where the source has None or raises. */
module Results {
  datatype Option<+T> = None | Some(value: T)
}
