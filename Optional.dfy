/** An optional value: `None` stands for Java's `null`. */
module Optional {
  datatype Option<+T> = None | Some(value: T)
}
