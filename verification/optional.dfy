/** An optional value: `None` stands for an absent key code or a frame rate
    that is not a finite number. */
module Optional {
  datatype Option<+T> = None | Some(value: T)
}
