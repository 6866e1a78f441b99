/** The parts of the framework's user object that the field-level guards read.
    The user record, its status record and its permission check belong to the
    persistence layer; here they are plain values. */
module Users {

  datatype Option<+T> = None | Some(value: T)

  /** The account-status record kept beside a user; the guards read only its verified flag. */
  datatype Status = Status(verified: bool)

  /** A user as the guards see it: a logged-in account or the anonymous user.
      `status` is what the status lookup finds (None when the user has no record),
      `granted` the permission strings the permission check answers yes to,
      `usernameValue` the value of the field the user model names as its username
      field (None when the user has no such attribute). */
  datatype User = User(
    authenticated: bool,
    status: Option<Status>,
    granted: set<string>,
    firstName: string,
    usernameValue: Option<string>)

  /** The user's permission check for one permission string. */
  predicate HasPerm(u: User, permission: string)
  {
    permission in u.granted
  }

  /** How a denial names the user: its first name when that is non-empty, else the
      value of its username field, which string formatting renders as "None" when absent. */
  function DisplayName(u: User): (name: string)
    ensures u.firstName != "" ==> name == u.firstName
    ensures u.firstName == "" && u.usernameValue.Some? ==> name == u.usernameValue.value
    ensures u.firstName == "" && u.usernameValue.None? ==> name == "None"
  {
    if u.firstName != "" then u.firstName
    else match u.usernameValue
      case Some(value) => value
      case None => "None"
  }
}
