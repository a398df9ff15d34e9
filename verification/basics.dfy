/** Small shared datatypes. */
module Basics {
  datatype Option<+T> = None | Some(value: T)

  datatype List<+T> = Nil | Cons(head: T, tail: List<T>)

  /** Why a call failed. `Other` covers every error the operator does not look into. */
  datatype Reason = NotFound | AlreadyExists | Conflict | Other

  /** An error's message, kept as structure instead of as text. */
  datatype Message =
    | Said(text: string)
    | NoSuchObject
    | ObjectExists
    | VersionConflict
    | NotManaged
    | TimedOut
    | InvalidHost
    | InvalidIngress
    | InvalidPackage
    | MalformedKey
    | Because(what: Step, cause: Message)
    | Joined(parts: seq<Message>)

  /** The step that wraps another error's message in its own. */
  datatype Step = DeletingOld | WaitingForDeletion | SettingDefaults | Reconciling

  datatype Error = Error(reason: Reason, msg: Message)
}
