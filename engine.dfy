/** Small value types shared by both behaviours: an optional value, standing in
    for a nullable reference, and the outcome of one engine callback. */
module Engine {

  /** A reference that the scene author may leave unassigned (C# `null`). */
  datatype Option<T> = None | Some(value: T)

  /** How one engine callback ended: normally, or with a NullReferenceException
      that the engine logs and that abandons the rest of that callback. */
  datatype Outcome = Completed | NullReference
}
