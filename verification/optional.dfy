/** The conventional Some/None datatype, used for dictionary lookups that may miss. */
module Optional {

  datatype Option<+T> = None | Some(value: T)

}
