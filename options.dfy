/** The optional value Kotlin expresses with a nullable type (`T?`). */
module Options {

  datatype Option<T> = None | Some(value: T)

}
