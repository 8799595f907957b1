/** The one optional value the other modules share: a nullable column, an absent
  * query parameter, a timer that is not armed. */
module Options {
  datatype Option<+T> = None | Some(value: T)
}
