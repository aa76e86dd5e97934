module Options {

  datatype Option<+T> = None | Some(value: T)

  /** Order on optional limits, where `None` is no limit at all. */
  predicate AtMost(a: Option<nat>, b: Option<nat>)
  {
    b.None? || (a.Some? && a.value <= b.value)
  }
}
