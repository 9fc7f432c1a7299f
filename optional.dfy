/** Optional values; `None` stands for a JavaScript `undefined` (or `null`). */
module Optional {

  datatype Option<+T> = None | Some(value: T)
}
