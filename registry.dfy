/**
 * The blocked-user registry: a map from user ID to the moment the user was
 * blocked, persisted as the single option `user_access_blocker_users`.
 */
module Registry {

  /** The `array('timestamp' => time())` record stored per blocked user. */
  datatype BlockedEntry = BlockedEntry(timestamp: int)

  type Registry = map<int, BlockedEntry>

  /**
   * The raw value of the option: never written, an array keyed by user ID,
   * or some other value (a string, a number) that is not an array.
   */
  datatype StoredOption = Unset | ArrayValue(entries: Registry) | NonArray

  /** `get_blocked_users`: the stored array, or the empty registry for anything else. */
  function GetBlockedUsers(o: StoredOption): (r: Registry)
    ensures o.ArrayValue? ==> r == o.entries
    ensures !o.ArrayValue? ==> r == map[]
  {
    match o
    case ArrayValue(entries) => entries
    case _ => map[]
  }

  /** Saving a registry and loading it again gives back the same registry. */
  lemma LoadAfterSave(m: Registry)
    ensures GetBlockedUsers(ArrayValue(m)) == m
  {
  }

  /**
   * Saving what was just loaded does not change what the next load sees,
   * although it replaces an unset or non-array option by an empty array.
   */
  lemma SaveOfLoadIsInvisible(o: StoredOption)
    ensures GetBlockedUsers(ArrayValue(GetBlockedUsers(o))) == GetBlockedUsers(o)
    ensures o.ArrayValue? ==> ArrayValue(GetBlockedUsers(o)) == o
  {
  }
}
