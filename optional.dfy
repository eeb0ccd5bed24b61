/** The usual optional value, used where the program either shows a value or shows nothing. */
module Optional {

  datatype Option<+T> = None | Some(value: T)

}
