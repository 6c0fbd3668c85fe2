/** Small value wrappers shared by the stores. */
module Wrappers {

  /** A value that may be absent (`null` / `undefined` in the stores). */
  datatype Option<+T> = None | Some(value: T)

  /** How an async store action settles: its promise resolves with a value,
      or rejects with the message of the error it rethrew. */
  datatype Completion<+T> = Resolved(value: T) | Rejected(reason: string)
}
