/** Plain records shared by the service, the storage layer and the configuration.
    They mirror the Go structs of the `entities` package and the `(value, error)`
    pairs that the store interface returns. */
module Entities {

  /** An uploaded contact: a display name (never persisted) and a phone number. */
  datatype Contact = Contact(name: string, phoneNumber: string)

  /** A registered user, as returned by the user directory. */
  datatype User = User(userID: int, name: string, phoneNumber: string)

  /** A directed edge: the owner `userID` has `relationUserID` among their contacts. */
  datatype Relation = Relation(userID: int, relationUserID: int)

  /** A row of the friends query: the edge plus the target's phone number. */
  datatype Friend = Friend(userID: int, relationUserID: int, phoneNumber: string)

  /** A Go `error` value; only its message is observable. */
  datatype Error = Error(message: string)

  datatype Option<+T> = None | Some(value: T) {
    predicate IsFailure() { None? }
    function PropagateFailure<U>(): Option<U> requires None? { None }
    function Extract(): T requires Some? { value }
  }

  datatype Result<+T> = Success(value: T) | Failure(error: Error)

  /** The `(*entities.User, error)` pair of `FindUserByPhone`: a user, a nil user
      with a nil error, or an error (which the caller checks first). */
  datatype UserLookup = Found(user: User) | NoUser | LookupError(error: Error)
}
