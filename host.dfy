/**
 * What the plugin sees of its host: the user directory, the request context
 * of an AJAX call, the value travelling through the `authenticate` filter and
 * the arguments of a user query. These are inputs; the host's own logic
 * (nonce verification, capabilities, the query engine) is not modelled.
 */
module Host {

  /** The role whose holders can never be blocked. */
  const Administrator: string := "administrator"

  /** A `WP_User`: its ID, `user_login`, `user_email` and `roles`. */
  datatype WpUser = WpUser(id: int, login: string, email: string, roles: seq<string>)

  /** The user directory as `get_userdata` sees it: a missing key is a `false` reply. */
  type Directory = map<int, WpUser>

  /** `in_array('administrator', $user->roles)`. */
  predicate IsAdministrator(u: WpUser) {
    Administrator in u.roles
  }

  /**
   * What an AJAX handler learns from the host before it looks at its own
   * parameters: whether `wp_verify_nonce` accepted the posted nonce (false
   * when none was posted), whether `current_user_can('manage_options')`
   * holds, and `get_current_user_id()`.
   */
  datatype Context = Context(nonceValid: bool, canManageOptions: bool, currentUserId: int)

  /**
   * The first argument of the `authenticate` filter: a `WP_User`, a
   * `WP_Error` with its code and message, or `null` when no earlier
   * authenticator produced anything.
   */
  datatype AuthValue =
    | AuthUser(user: WpUser)
    | AuthError(code: string, message: string)
    | AuthNull

  /** The arguments handed to `WP_User_Query`. */
  datatype QueryArgs = QueryArgs(search: string, searchColumns: seq<string>, number: nat, exclude: seq<int>)

  /**
   * A reply of the user query that respects its `number` and `exclude`
   * arguments. The matching of `search` against the columns is the host's
   * business and is not part of this predicate.
   */
  predicate Honours(args: QueryArgs, users: seq<WpUser>) {
    && |users| <= args.number
    && forall i :: 0 <= i < |users| ==> users[i].id !in args.exclude
  }
}
