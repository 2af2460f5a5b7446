/** A value that may be absent, which is what nil stands for in most places. */
module Options {

  datatype Option<+T> = None | Some(value: T)
}
