/** An optional value, standing for the source's `T | null` fields. */
module Maybe {

  datatype Option<T> = None | Some(value: T)

}
