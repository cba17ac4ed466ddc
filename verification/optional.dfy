/** The `undefined`-or-value results of the source's lookups (`Array.find`,
    indexing past the end of an array) and the optional sections of a
    partial configuration. */
module Optional {

  datatype Option<+T> = None | Some(value: T) {

    /** What a spread `{ ...base, ...overrides }` keeps for one key: the
        override when it is present, `base` when the key is absent. */
    function OverridesOr(base: T): T {
      if Some? then value else base
    }
  }
}
