/** The optional value used wherever the game returns "a card, or nothing". */
module Optional {
  datatype Option<+T> = None | Some(value: T)
}
