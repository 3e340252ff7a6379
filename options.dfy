/** The optional value used wherever the JavaScript looks a key up in an object
    literal and may get `undefined` back. */
module Options {
  datatype Option<+T> = None | Some(value: T)
}
