/** Python values as the state field sees them. */
module Python {

  /** A Python object that may be `None`. `__get__` answers `None` for a slot
      that was never written, and a workflow may even use `None` as a key. */
  datatype PyValue<+T> = PyNone | PyObj(obj: T)
}
