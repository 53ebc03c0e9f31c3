/** The usual optional value. */
module Options {
  datatype Option<+T> = None | Some(value: T)
}

/** What mirrors replicate. */
module Changes {
  /** A replicated change; `isRow` holds for inserts, updates and deletes. */
  datatype Record = Record(payload: int, isRow: bool)
}
