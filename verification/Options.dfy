/** An optional value: the null ids, missing entities and absent table entries of the framework. */
module Options {
  datatype Option<+T> = None | Some(value: T) {
    ghost function ToSet(): set<T> { if Some? then {value} else {} }
  }
}
