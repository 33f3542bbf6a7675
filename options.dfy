/** The optional value used where the bot stores `null` or leaves a field undefined. */
module Options {

  datatype Option<T> = None | Some(value: T)

}
