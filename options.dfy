/** Optional values: a missing query parameter, a SQL aggregate over no rows. */
module Options {
  datatype Option<+T> = None | Some(value: T)
}
