/** The absent-or-present value used wherever the game returns `null`/`undefined`. */
module Optional {

  datatype Option<+T> = None | Some(value: T)
}
