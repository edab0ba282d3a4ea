/** The nullable slots of the system (React `string | null` state, Python `Optional[str]`). */
module Optional {

  datatype Option<+T> = None | Some(value: T)

  /** JavaScript and Python agree on the truthiness of an optional string:
      a missing value and the empty string are both falsy. */
  predicate Truthy(v: Option<string>) {
    v.Some? && v.value != ""
  }
}
