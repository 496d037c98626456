/** The optional value the game's JavaScript expresses with `null` and `undefined`. */
module Options {
  datatype Option<+T> = None | Some(value: T)
}
