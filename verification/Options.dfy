/** Optional values, as the conductor and its stores pass them around. */
module Options {

  datatype Option<+T> = None | Some(value: T)
}
