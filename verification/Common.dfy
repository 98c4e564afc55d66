/** Small vocabulary shared by the models: an optional value, and the sums used by
    the capacity accounts. */
module Common {

  datatype Option<+T> = None | Some(value: T)

  function Unit(b: bool): nat {
    if b then 1 else 0
  }
}
