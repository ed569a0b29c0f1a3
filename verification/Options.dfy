/** What the component models share: an optional value, and Go's unordered map iteration. */
module Options {
  datatype Option<+T> = None | Some(value: T)

  /** The next key of a map iteration: any one that is left. */
  method AnyOf<T>(keys: set<T>) returns (key: T)
    requires keys != {}
    ensures key in keys
  {
    key :| key in keys;
  }
}
