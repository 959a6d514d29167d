/**
 * The remote backend (Firebase authentication and the Firestore document store) seen from
 * the app: the records it stores, the replies its callbacks deliver, and the requests the app
 * makes. Nothing of the backend itself is modelled; its replies are inputs of each step.
 */
module Backend {
  import opened Wrappers
  import opened Geo
  import TrackerSpec

  /** The Firestore user document `model/User.kt`, declared with the fields (id, email, name). */
  datatype User = User(id: string, email: string, name: string)

  /** The reply of a repository callback `onComplete(isSuccess, errorMessage)`. */
  datatype Outcome = Outcome(isSuccess: bool, errorMessage: Option<string>)

  /** A request the app sends to the backend. */
  datatype BackendCall =
    | CreateUser(email: string, password: string)
    | StoreAccountData(user: User)
    | SignIn(email: string, password: string)
    | SignOut
    | AddTargetDocument(userId: string, target: TrackerSpec.Target)
    | DeleteTargetDocument(userId: string, targetId: string)

  /** What one user step leads to: the actions it dispatches back to its own handler, in order, and the requests it sends. */
  datatype Effects<A> = Effects(dispatched: seq<A>, calls: seq<BackendCall>)

  /** Kotlin's `String?.toString()`: the text of a message, or "null" when there is none. */
  function MessageText(message: Option<string>): (r: string)
    ensures message.Some? ==> r == message.value
    ensures message.None? ==> r == "null"
  {
    match message
    case Some(m) => m
    case None => "null"
  }

  /**
   * The user document as both sign-up view models write it: `User(uid, username, email)`
   * passes its arguments by position, so the username lands in `email` and the email in `name`.
   */
  function PositionalUser(uid: string, username: string, email: string): User {
    User(uid, username, email)
  }

  /** The stored document is wrong whenever the username and the email differ. */
  lemma PositionalUserSwapsFields(uid: string, username: string, email: string)
    requires username != email
    ensures PositionalUser(uid, username, email).email != email
    ensures PositionalUser(uid, username, email).name != username
  {
  }

  /** A concrete sign-up that stores its username as the email address. */
  lemma PositionalUserExample()
    ensures PositionalUser("u1", "alice", "alice@example.com").email == "alice"
  {
  }

  /** The user document with each value in its declared field: the id, the email, and the username as the name. */
  function AccountRecord(uid: string, username: string, email: string): (u: User)
    ensures u.id == uid && u.email == email && u.name == username
  {
    User(id := uid, email := email, name := username)
  }
}
