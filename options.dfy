/** Optional values, used where the source has `None` and where it raises
    an exception (an empty `randint` range, a division by zero). */
module Options {

  datatype Option<T> = None | Some(value: T)
}
