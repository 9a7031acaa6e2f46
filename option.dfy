// A value that may be absent: TypeScript's `T | null` state slots.

module Optional {
  datatype Option<T> = None | Some(value: T)
}
