/** Small value wrappers shared by the rest of the model. */
module Wrappers {

  /** An optional value; also stands for a state key that is absent or holds Python's None. */
  datatype Option<+T> = None | Some(value: T)

  /** What a patch does to one state key: leave it (the key is not in the dict) or overwrite it. */
  datatype Upd<+T> = Keep | Put(value: T) {
    /** The key's value after the patch, given its value before. */
    function Or(current: T): T {
      match this
      case Keep => current
      case Put(v) => v
    }

    /** The same, for a key whose value may be absent. */
    function Onto(current: Option<T>): Option<T> {
      match this
      case Keep => current
      case Put(v) => Some(v)
    }
  }

  /** The outcome of a call into a collaborator: a value, or the message of the exception it raised. */
  datatype Outcome<+T> = Ok(value: T) | Raise(error: string)
}
