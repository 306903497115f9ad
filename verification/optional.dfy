/** The optional values of the property structures (std::optional). */
module Optional {

  datatype Option<+T> = None | Some(value: T)
}
