/** A value that may be missing: std::optional, a failed search, a thrown conversion. */
module Optional {
  datatype Option<+T> = None | Some(value: T)
}
