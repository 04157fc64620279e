/**
 * The three AJAX handlers of the admin page: block a user, unblock a user
 * and search the directory. Each runs an ordered chain of checks in which
 * the first failing one ends the request with its error reply; the block
 * and unblock handlers then load the whole registry, change one key and
 * write the whole registry back.
 */
module Handlers {
  import opened Wrappers
  import opened Host
  import opened Registry

  /** The error replies of the handlers, one per check. */
  datatype HandlerError =
    | InvalidNonce
    | InsufficientPermissions
    | InvalidUserId
    | UserNotFound
    | CannotBlockYourself
    | AdministratorProtected
    | UserNotBlocked
    | SearchTermRequired
  {
    /** The message string sent with `wp_send_json_error`. */
    function Message(): string {
      match this
      case InvalidNonce => "Invalid nonce"
      case InsufficientPermissions => "Insufficient permissions"
      case InvalidUserId => "Invalid user ID"
      case UserNotFound => "User not found"
      case CannotBlockYourself => "You cannot block yourself"
      case AdministratorProtected => "Administrators cannot be blocked"
      case UserNotBlocked => "User is not blocked"
      case SearchTermRequired => "Search term is required"
    }
  }

  /** The position of a check in the handlers' chains: a lower rank runs first. */
  function Rank(e: HandlerError): nat {
    match e
    case InvalidNonce => 0
    case InsufficientPermissions => 1
    case InvalidUserId => 2
    case SearchTermRequired => 2
    case UserNotFound => 3
    case CannotBlockYourself => 4
    case AdministratorProtected => 5
    case UserNotBlocked => 6
  }

  // ---------------------------------------------------------------------
  // Block

  /** When each check of the block handler rejects the request. */
  predicate BlockCheckFails(e: HandlerError, ctx: Context, userId: int, dir: Directory) {
    match e
    case InvalidNonce => !ctx.nonceValid
    case InsufficientPermissions => !ctx.canManageOptions
    case InvalidUserId => userId <= 0
    case UserNotFound => userId !in dir
    case CannotBlockYourself => userId == ctx.currentUserId
    case AdministratorProtected => userId in dir && IsAdministrator(dir[userId])
    case _ => false
  }

  /** Every check of the block handler passes. */
  predicate BlockAllowed(ctx: Context, userId: int, dir: Directory) {
    && !BlockCheckFails(InvalidNonce, ctx, userId, dir)
    && !BlockCheckFails(InsufficientPermissions, ctx, userId, dir)
    && !BlockCheckFails(InvalidUserId, ctx, userId, dir)
    && !BlockCheckFails(UserNotFound, ctx, userId, dir)
    && !BlockCheckFails(CannotBlockYourself, ctx, userId, dir)
    && !BlockCheckFails(AdministratorProtected, ctx, userId, dir)
  }

  /**
   * The error reply of the block handler, if any: the earliest check in the
   * chain that fails.
   */
  function BlockRejection(ctx: Context, userId: int, dir: Directory): (r: Option<HandlerError>)
    ensures r.None? <==> BlockAllowed(ctx, userId, dir)
    ensures r.Some? ==> BlockCheckFails(r.value, ctx, userId, dir)
    ensures r.Some? ==> forall e :: Rank(e) < Rank(r.value) ==> !BlockCheckFails(e, ctx, userId, dir)
  {
    if !ctx.nonceValid then Some(InvalidNonce)
    else if !ctx.canManageOptions then Some(InsufficientPermissions)
    else if userId <= 0 then Some(InvalidUserId)
    else if userId !in dir then Some(UserNotFound)
    else if userId == ctx.currentUserId then Some(CannotBlockYourself)
    else if IsAdministrator(dir[userId]) then Some(AdministratorProtected)
    else None
  }

  /**
   * The option after a block request: unchanged when the request is
   * rejected; otherwise an array with one more key, the target, mapped to
   * `now`, and every other entry as it was. Blocking an already blocked
   * user only replaces the timestamp.
   */
  function AfterBlock(o: StoredOption, ctx: Context, userId: int, dir: Directory, now: int): (r: StoredOption)
    ensures !BlockAllowed(ctx, userId, dir) ==> r == o
    ensures BlockAllowed(ctx, userId, dir) ==>
      && r.ArrayValue?
      && r.entries.Keys == GetBlockedUsers(o).Keys + {userId}
      && r.entries[userId] == BlockedEntry(now)
      && forall id :: id in GetBlockedUsers(o) && id != userId ==> r.entries[id] == GetBlockedUsers(o)[id]
  {
    if BlockRejection(ctx, userId, dir).Some? then o
    else ArrayValue(GetBlockedUsers(o)[userId := BlockedEntry(now)])
  }

  /** The user part of a successful block reply; `blockedOn` is the raw `time()` before `gmdate` formatting. */
  datatype BlockedUser = BlockedUser(id: int, username: string, email: string, blockedOn: int)

  datatype BlockReply = BlockReply(message: string, user: BlockedUser)

  const BlockedSuccessfully: string := "User blocked successfully"

  // ---------------------------------------------------------------------
  // Unblock

  /** When each check of the unblock handler rejects the request. */
  predicate UnblockCheckFails(e: HandlerError, ctx: Context, userId: int, blocked: Registry) {
    match e
    case InvalidNonce => !ctx.nonceValid
    case InsufficientPermissions => !ctx.canManageOptions
    case InvalidUserId => userId <= 0
    case UserNotBlocked => userId !in blocked
    case _ => false
  }

  /** Every check of the unblock handler passes. */
  predicate UnblockAllowed(ctx: Context, userId: int, blocked: Registry) {
    && !UnblockCheckFails(InvalidNonce, ctx, userId, blocked)
    && !UnblockCheckFails(InsufficientPermissions, ctx, userId, blocked)
    && !UnblockCheckFails(InvalidUserId, ctx, userId, blocked)
    && !UnblockCheckFails(UserNotBlocked, ctx, userId, blocked)
  }

  /**
   * The error reply of the unblock handler, if any: the earliest failing
   * check. The handler never asks whether the user exists or is an
   * administrator, only whether the ID is a registry key.
   */
  function UnblockRejection(ctx: Context, userId: int, blocked: Registry): (r: Option<HandlerError>)
    ensures r.None? <==> UnblockAllowed(ctx, userId, blocked)
    ensures r.Some? ==> UnblockCheckFails(r.value, ctx, userId, blocked)
    ensures r.Some? ==> forall e :: Rank(e) < Rank(r.value) ==> !UnblockCheckFails(e, ctx, userId, blocked)
  {
    if !ctx.nonceValid then Some(InvalidNonce)
    else if !ctx.canManageOptions then Some(InsufficientPermissions)
    else if userId <= 0 then Some(InvalidUserId)
    else if userId !in blocked then Some(UserNotBlocked)
    else None
  }

  /**
   * The option after an unblock request: unchanged when the request is
   * rejected; otherwise an array holding exactly the old entries but the
   * target's.
   */
  function AfterUnblock(o: StoredOption, ctx: Context, userId: int): (r: StoredOption)
    ensures !UnblockAllowed(ctx, userId, GetBlockedUsers(o)) ==> r == o
    ensures UnblockAllowed(ctx, userId, GetBlockedUsers(o)) ==>
      && r.ArrayValue?
      && r.entries.Keys == GetBlockedUsers(o).Keys - {userId}
      && forall id :: id in r.entries ==> r.entries[id] == GetBlockedUsers(o)[id]
  {
    var blocked := GetBlockedUsers(o);
    if UnblockRejection(ctx, userId, blocked).Some? then o
    else ArrayValue(blocked - {userId})
  }

  datatype UnblockReply = UnblockReply(message: string, userId: int)

  const UnblockedSuccessfully: string := "User unblocked successfully"

  // ---------------------------------------------------------------------
  // Search

  /** PHP's `empty()` on a string: true for the empty string and for "0". */
  predicate IsEmptyTerm(term: string) {
    term == "" || term == "0"
  }

  /** When each check of the search handler rejects the request. */
  predicate SearchCheckFails(e: HandlerError, ctx: Context, term: string) {
    match e
    case InvalidNonce => !ctx.nonceValid
    case InsufficientPermissions => !ctx.canManageOptions
    case SearchTermRequired => IsEmptyTerm(term)
    case _ => false
  }

  /** Every check of the search handler passes. */
  predicate SearchAllowed(ctx: Context, term: string) {
    && !SearchCheckFails(InvalidNonce, ctx, term)
    && !SearchCheckFails(InsufficientPermissions, ctx, term)
    && !SearchCheckFails(SearchTermRequired, ctx, term)
  }

  /** The error reply of the search handler, if any: the earliest failing check. */
  function SearchRejection(ctx: Context, term: string): (r: Option<HandlerError>)
    ensures r.None? <==> SearchAllowed(ctx, term)
    ensures r.Some? ==> SearchCheckFails(r.value, ctx, term)
    ensures r.Some? ==> forall e :: Rank(e) < Rank(r.value) ==> !SearchCheckFails(e, ctx, term)
  {
    if !ctx.nonceValid then Some(InvalidNonce)
    else if !ctx.canManageOptions then Some(InsufficientPermissions)
    else if IsEmptyTerm(term) then Some(SearchTermRequired)
    else None
  }

  /** The query the search handler runs: a wildcard match on login and e-mail, at most 10 users, never the caller. */
  function SearchArgs(term: string, currentUserId: int): QueryArgs {
    QueryArgs("*" + term + "*", ["user_login", "user_email"], 10, [currentUserId])
  }

  /** One row of the search reply. */
  datatype SearchResult = SearchResult(id: int, username: string, email: string, isAdmin: bool, isBlocked: bool)

  /** The row for one user found by the query, judged against the registry loaded before the query ran. */
  function Annotate(blocked: Registry, u: WpUser): (r: SearchResult)
    ensures r.id == u.id && r.username == u.login && r.email == u.email
    ensures r.isAdmin <==> Administrator in u.roles
    ensures r.isBlocked <==> u.id in blocked
  {
    SearchResult(u.id, u.login, u.email, IsAdministrator(u), u.id in blocked)
  }

  // ---------------------------------------------------------------------
  // The plugin object

  /**
   * `User_Access_Blocker`, reduced to the one piece of state its handlers
   * touch: the value of the `user_access_blocker_users` option.
   */
  class UserAccessBlocker {
    var stored: StoredOption

    constructor (initial: StoredOption)
      ensures stored == initial
    {
      stored := initial;
    }

    /**
     * `ajax_block_user`. `now` is the `time()` stored in the registry and
     * `shownAt` the later `time()` reported back as `blocked_on`.
     */
    method AjaxBlockUser(ctx: Context, userId: int, dir: Directory, now: int, shownAt: int)
      returns (r: Result<BlockReply, HandlerError>)
      modifies this
      ensures stored == AfterBlock(old(stored), ctx, userId, dir, now)
      ensures r.Failure? <==> !BlockAllowed(ctx, userId, dir)
      ensures r.Failure? ==> Some(r.error) == BlockRejection(ctx, userId, dir)
      ensures r.Success? ==>
        && userId in dir
        && r.value == BlockReply(BlockedSuccessfully, BlockedUser(userId, dir[userId].login, dir[userId].email, shownAt))
    {
      if !ctx.nonceValid {
        return Failure(InvalidNonce);
      }
      if !ctx.canManageOptions {
        return Failure(InsufficientPermissions);
      }
      if userId <= 0 {
        return Failure(InvalidUserId);
      }
      if userId !in dir {
        return Failure(UserNotFound);
      }
      var user := dir[userId];
      if userId == ctx.currentUserId {
        return Failure(CannotBlockYourself);
      }
      if IsAdministrator(user) {
        return Failure(AdministratorProtected);
      }
      var blockedUsers := GetBlockedUsers(stored);
      blockedUsers := blockedUsers[userId := BlockedEntry(now)];
      stored := ArrayValue(blockedUsers);
      r := Success(BlockReply(BlockedSuccessfully, BlockedUser(userId, user.login, user.email, shownAt)));
    }

    /** `ajax_unblock_user`. */
    method AjaxUnblockUser(ctx: Context, userId: int)
      returns (r: Result<UnblockReply, HandlerError>)
      modifies this
      ensures stored == AfterUnblock(old(stored), ctx, userId)
      ensures r.Failure? <==> !UnblockAllowed(ctx, userId, GetBlockedUsers(old(stored)))
      ensures r.Failure? ==> Some(r.error) == UnblockRejection(ctx, userId, GetBlockedUsers(old(stored)))
      ensures r.Success? ==> r.value == UnblockReply(UnblockedSuccessfully, userId)
    {
      if !ctx.nonceValid {
        return Failure(InvalidNonce);
      }
      if !ctx.canManageOptions {
        return Failure(InsufficientPermissions);
      }
      if userId <= 0 {
        return Failure(InvalidUserId);
      }
      var blockedUsers := GetBlockedUsers(stored);
      if userId in blockedUsers {
        blockedUsers := blockedUsers - {userId};
        stored := ArrayValue(blockedUsers);
        r := Success(UnblockReply(UnblockedSuccessfully, userId));
      } else {
        r := Failure(UserNotBlocked);
      }
    }

    /**
     * `ajax_search_users`. `query` stands for `WP_User_Query`: it maps the
     * query arguments to the users it finds. The handler writes nothing.
     */
    method AjaxSearchUsers(ctx: Context, term: string, query: QueryArgs -> seq<WpUser>)
      returns (r: Result<seq<SearchResult>, HandlerError>)
      ensures r.Failure? <==> !SearchAllowed(ctx, term)
      ensures r.Failure? ==> Some(r.error) == SearchRejection(ctx, term)
      ensures r.Success? ==>
        var found := query(SearchArgs(term, ctx.currentUserId));
        && |r.value| == |found|
        && forall i :: 0 <= i < |found| ==>
             && r.value[i].id == found[i].id
             && r.value[i].username == found[i].login
             && r.value[i].email == found[i].email
             && (r.value[i].isAdmin <==> IsAdministrator(found[i]))
             && (r.value[i].isBlocked <==> found[i].id in GetBlockedUsers(stored))
      ensures r.Success? && Honours(SearchArgs(term, ctx.currentUserId), query(SearchArgs(term, ctx.currentUserId))) ==>
        && |r.value| <= 10
        && forall i :: 0 <= i < |r.value| ==> r.value[i].id != ctx.currentUserId
    {
      if !ctx.nonceValid {
        return Failure(InvalidNonce);
      }
      if !ctx.canManageOptions {
        return Failure(InsufficientPermissions);
      }
      if IsEmptyTerm(term) {
        return Failure(SearchTermRequired);
      }
      var blockedUsers := GetBlockedUsers(stored);
      var users := query(SearchArgs(term, ctx.currentUserId));
      var results: seq<SearchResult> := [];
      for i := 0 to |users|
        invariant |results| == i
        invariant forall k :: 0 <= k < i ==> results[k] == Annotate(blockedUsers, users[k])
      {
        var user := users[i];
        results := results + [Annotate(blockedUsers, user)];
      }
      r := Success(results);
    }
  }
}
