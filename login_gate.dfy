/** The `authenticate` filter that turns a blocked user's login into an error. */
module LoginGate {
  import opened Host
  import opened Registry

  /** The code of the error the gate returns. */
  const BlockedCode: string := "block-user-login"

  /** The message shown to a blocked user on the login screen. */
  const BlockedMessage: string :=
    "Your account has been blocked. Please contact the site administrator for assistance."

  /**
   * `check_if_blocked`: every value that is not a `WP_User` passes through
   * untouched; a user whose ID is a registry key is replaced by the blocked
   * error; any other user passes through untouched. The user name and the
   * password are not consulted.
   */
  function CheckIfBlocked(stored: StoredOption, user: AuthValue, username: string, password: string): (r: AuthValue)
    ensures !user.AuthUser? ==> r == user
    ensures user.AuthUser? ==> (r.AuthError? <==> user.user.id in GetBlockedUsers(stored))
    ensures user.AuthUser? && user.user.id in GetBlockedUsers(stored) ==> r == AuthError(BlockedCode, BlockedMessage)
    ensures r != user ==> r == AuthError(BlockedCode, BlockedMessage)
  {
    match user
    case AuthUser(u) =>
      var blockedUsers := GetBlockedUsers(stored);
      if u.id in blockedUsers then AuthError(BlockedCode, BlockedMessage) else user
    case _ => user
  }
}
