/**
 * What the handlers and the login gate promise together: blocking denies
 * the next login, unblocking restores it, administrators and the acting
 * user are never blocked, and, over any sequence of admin requests, a
 * user's login is denied exactly when the last effective request about
 * that user was a block.
 */
module Properties {
  import opened Wrappers
  import opened Host
  import opened Registry
  import opened LoginGate
  import opened Handlers

  // ---------------------------------------------------------------------
  // One request, then a login or a search

  /** After a successful block, the blocked user's next login fails with the gate's error. */
  lemma BlockDeniesLogin(o: StoredOption, ctx: Context, dir: Directory, now: int, u: WpUser, username: string, password: string)
    requires BlockAllowed(ctx, u.id, dir)
    ensures CheckIfBlocked(AfterBlock(o, ctx, u.id, dir, now), AuthUser(u), username, password)
         == AuthError(BlockedCode, BlockedMessage)
  {
  }

  /**
   * After a successful block, an unblock of the same user by any caller who
   * passes the nonce and capability checks succeeds, brings the registry back
   * to what it was without that user, and lets the user's login through
   * unchanged.
   */
  lemma UnblockAfterBlockRestoresLogin(
    o: StoredOption, ctx: Context, dir: Directory, now: int, ctx': Context,
    u: WpUser, username: string, password: string)
    requires BlockAllowed(ctx, u.id, dir)
    requires ctx'.nonceValid && ctx'.canManageOptions
    ensures UnblockAllowed(ctx', u.id, GetBlockedUsers(AfterBlock(o, ctx, u.id, dir, now)))
    ensures GetBlockedUsers(AfterUnblock(AfterBlock(o, ctx, u.id, dir, now), ctx', u.id))
         == GetBlockedUsers(o) - {u.id}
    ensures CheckIfBlocked(AfterUnblock(AfterBlock(o, ctx, u.id, dir, now), ctx', u.id), AuthUser(u), username, password)
         == AuthUser(u)
  {
    var blocked := AfterBlock(o, ctx, u.id, dir, now);
    var unblocked := AfterUnblock(blocked, ctx', u.id);
    assert GetBlockedUsers(unblocked).Keys == GetBlockedUsers(o).Keys - {u.id};
  }

  /** A search right after a successful block reports the target as blocked; after the unblock, as not blocked. */
  lemma SearchReflectsBlockAndUnblock(o: StoredOption, ctx: Context, dir: Directory, now: int, ctx': Context, u: WpUser)
    requires BlockAllowed(ctx, u.id, dir)
    requires ctx'.nonceValid && ctx'.canManageOptions
    ensures Annotate(GetBlockedUsers(AfterBlock(o, ctx, u.id, dir, now)), u).isBlocked
    ensures !Annotate(GetBlockedUsers(AfterUnblock(AfterBlock(o, ctx, u.id, dir, now), ctx', u.id)), u).isBlocked
  {
  }

  /** A block or an unblock of one user never changes whether another user can log in. */
  lemma OtherLoginsUnaffected(
    o: StoredOption, ctx: Context, userId: int, dir: Directory, now: int,
    u: WpUser, username: string, password: string)
    requires u.id != userId
    ensures CheckIfBlocked(AfterBlock(o, ctx, userId, dir, now), AuthUser(u), username, password)
         == CheckIfBlocked(o, AuthUser(u), username, password)
    ensures CheckIfBlocked(AfterUnblock(o, ctx, userId), AuthUser(u), username, password)
         == CheckIfBlocked(o, AuthUser(u), username, password)
  {
  }

  /** An administrator is never added: the block is rejected, with the administrator error once the earlier checks pass. */
  lemma AdministratorNeverBlocked(o: StoredOption, ctx: Context, userId: int, dir: Directory, now: int)
    requires userId in dir && IsAdministrator(dir[userId])
    ensures AfterBlock(o, ctx, userId, dir, now) == o
    ensures ctx.nonceValid && ctx.canManageOptions && userId > 0 && userId != ctx.currentUserId ==>
      && BlockRejection(ctx, userId, dir) == Some(AdministratorProtected)
      && AdministratorProtected.Message() == "Administrators cannot be blocked"
  {
  }

  /** The acting user cannot block themselves, whatever their roles. */
  lemma SelfNeverBlocked(o: StoredOption, ctx: Context, dir: Directory, now: int)
    ensures AfterBlock(o, ctx, ctx.currentUserId, dir, now) == o
    ensures ctx.nonceValid && ctx.canManageOptions && ctx.currentUserId > 0 && ctx.currentUserId in dir ==>
      && BlockRejection(ctx, ctx.currentUserId, dir) == Some(CannotBlockYourself)
      && CannotBlockYourself.Message() == "You cannot block yourself"
  {
  }

  /** Re-blocking a blocked user succeeds and only replaces the timestamp. */
  lemma ReblockReplacesTimestamp(o: StoredOption, ctx: Context, userId: int, dir: Directory, now: int)
    requires BlockAllowed(ctx, userId, dir)
    requires userId in GetBlockedUsers(o)
    ensures GetBlockedUsers(AfterBlock(o, ctx, userId, dir, now)).Keys == GetBlockedUsers(o).Keys
    ensures GetBlockedUsers(AfterBlock(o, ctx, userId, dir, now))[userId] == BlockedEntry(now)
  {
  }

  /** Unblocking a user who is not in the registry is an error and leaves the option as it was. */
  lemma UnblockOfUnblockedIsError(o: StoredOption, ctx: Context, userId: int)
    requires userId !in GetBlockedUsers(o)
    ensures AfterUnblock(o, ctx, userId) == o
    ensures ctx.nonceValid && ctx.canManageOptions && userId > 0 ==>
      && UnblockRejection(ctx, userId, GetBlockedUsers(o)) == Some(UserNotBlocked)
      && UserNotBlocked.Message() == "User is not blocked"
  {
  }

  /**
   * Unblocking does not consult the directory: a user deleted, or promoted
   * to administrator, after being blocked can still be unblocked.
   */
  lemma UnblockIgnoresDirectory(o: StoredOption, ctx: Context, userId: int)
    requires ctx.nonceValid && ctx.canManageOptions && userId > 0
    requires userId in GetBlockedUsers(o)
    ensures UnblockAllowed(ctx, userId, GetBlockedUsers(o))
    ensures userId !in GetBlockedUsers(AfterUnblock(o, ctx, userId))
  {
  }

  // ---------------------------------------------------------------------
  // Any sequence of admin requests

  /** A request to one of the two writing handlers, with the `time()` it would store. */
  datatype AdminAction =
    | BlockAction(ctx: Context, userId: int, now: int)
    | UnblockAction(ctx: Context, userId: int)

  /** The option after one request. */
  function Apply(o: StoredOption, dir: Directory, a: AdminAction): StoredOption {
    match a
    case BlockAction(ctx, userId, now) => AfterBlock(o, ctx, userId, dir, now)
    case UnblockAction(ctx, userId) => AfterUnblock(o, ctx, userId)
  }

  /** The option after the requests, handled one after the other in order, against one directory. */
  function Replay(o: StoredOption, dir: Directory, actions: seq<AdminAction>): StoredOption
    decreases |actions|
  {
    if actions == [] then o else Replay(Apply(o, dir, actions[0]), dir, actions[1..])
  }

  /** Every registry key is a user of the directory who is not an administrator. */
  ghost predicate OnlyBlockableUsers(blocked: Registry, dir: Directory) {
    forall id :: id in blocked ==> id in dir && !IsAdministrator(dir[id])
  }

  /**
   * Whether one user is blocked, tracked without the registry: a block that
   * passes every check sets it, an unblock that passes the request checks
   * clears it, and anything else leaves it as it was.
   */
  function Effect(a: AdminAction, dir: Directory, id: int, blocked: bool): bool {
    match a
    case BlockAction(ctx, userId, _) =>
      if userId == id && BlockAllowed(ctx, userId, dir) then true else blocked
    case UnblockAction(ctx, userId) =>
      if userId == id && ctx.nonceValid && ctx.canManageOptions && userId > 0 then false else blocked
  }

  function BlockedAfter(actions: seq<AdminAction>, dir: Directory, id: int, blocked: bool): bool
    decreases |actions|
  {
    if actions == [] then blocked else BlockedAfter(actions[1..], dir, id, Effect(actions[0], dir, id, blocked))
  }

  /** One request keeps administrators and unknown users out of the registry. */
  lemma ApplyKeepsOnlyBlockableUsers(o: StoredOption, dir: Directory, a: AdminAction)
    requires OnlyBlockableUsers(GetBlockedUsers(o), dir)
    ensures OnlyBlockableUsers(GetBlockedUsers(Apply(o, dir, a)), dir)
  {
  }

  /**
   * Starting from a registry without administrators, no sequence of block and
   * unblock requests ever puts an administrator (or an unknown ID) into it,
   * as long as the directory does not change.
   */
  lemma {:induction false} ReplayKeepsOnlyBlockableUsers(o: StoredOption, dir: Directory, actions: seq<AdminAction>)
    requires OnlyBlockableUsers(GetBlockedUsers(o), dir)
    ensures OnlyBlockableUsers(GetBlockedUsers(Replay(o, dir, actions)), dir)
    decreases |actions|
  {
    if actions != [] {
      ApplyKeepsOnlyBlockableUsers(o, dir, actions[0]);
      ReplayKeepsOnlyBlockableUsers(Apply(o, dir, actions[0]), dir, actions[1..]);
    }
  }

  /** One request moves registry membership of a user exactly as `Effect` says. */
  lemma ApplyMatchesEffect(o: StoredOption, dir: Directory, a: AdminAction, id: int)
    ensures (id in GetBlockedUsers(Apply(o, dir, a))) == Effect(a, dir, id, id in GetBlockedUsers(o))
  {
  }

  /** After any sequence of requests, a user is a registry key exactly when `BlockedAfter` says so. */
  lemma {:induction false} ReplayMatchesBlockedAfter(o: StoredOption, dir: Directory, actions: seq<AdminAction>, id: int)
    ensures (id in GetBlockedUsers(Replay(o, dir, actions))) == BlockedAfter(actions, dir, id, id in GetBlockedUsers(o))
    decreases |actions|
  {
    if actions != [] {
      ApplyMatchesEffect(o, dir, actions[0], id);
      ReplayMatchesBlockedAfter(Apply(o, dir, actions[0]), dir, actions[1..], id);
    }
  }

  /**
   * After any sequence of requests, the login gate denies a user exactly when
   * the last request about them that took effect was a block (or, with none,
   * when they were blocked to begin with), and otherwise returns the user
   * unchanged.
   */
  lemma LoginAfterReplay(o: StoredOption, dir: Directory, actions: seq<AdminAction>, u: WpUser, username: string, password: string)
    ensures var r := CheckIfBlocked(Replay(o, dir, actions), AuthUser(u), username, password);
      if BlockedAfter(actions, dir, u.id, u.id in GetBlockedUsers(o))
      then r == AuthError(BlockedCode, BlockedMessage)
      else r == AuthUser(u)
  {
    ReplayMatchesBlockedAfter(o, dir, actions, u.id);
  }

  /** An administrator of an unchanging directory can always log in through the gate, from a registry without administrators. */
  lemma AdministratorLoginNeverBlocked(o: StoredOption, dir: Directory, actions: seq<AdminAction>, u: WpUser, username: string, password: string)
    requires OnlyBlockableUsers(GetBlockedUsers(o), dir)
    requires u.id in dir && IsAdministrator(dir[u.id])
    ensures CheckIfBlocked(Replay(o, dir, actions), AuthUser(u), username, password) == AuthUser(u)
  {
    ReplayKeepsOnlyBlockableUsers(o, dir, actions);
  }

  // ---------------------------------------------------------------------
  // A concrete run through the plugin object

  /**
   * An empty option; administrator 1 blocks user 5 at time 1000; a search
   * for user 5's login then reports them blocked and their login is denied.
   * The query stands in for a directory holding only user 5 besides the
   * caller.
   */
  method BlockSearchLoginScenario() returns (
    reply: Result<BlockReply, HandlerError>,
    found: Result<seq<SearchResult>, HandlerError>,
    login: AuthValue)
    ensures reply == Success(BlockReply(BlockedSuccessfully, BlockedUser(5, "target5name", "t5@example.org", 1000)))
    ensures found == Success([SearchResult(5, "target5name", "t5@example.org", false, true)])
    ensures login == AuthError(BlockedCode, BlockedMessage)
  {
    var admin := WpUser(1, "admin", "admin@example.org", [Administrator]);
    var target := WpUser(5, "target5name", "t5@example.org", ["subscriber"]);
    var dir: Directory := map[1 := admin, 5 := target];
    var ctx := Context(true, true, 1);
    var blocker := new UserAccessBlocker(Unset);
    reply := blocker.AjaxBlockUser(ctx, 5, dir, 1000, 1000);
    assert GetBlockedUsers(blocker.stored) == map[5 := BlockedEntry(1000)];
    found := blocker.AjaxSearchUsers(ctx, "target5name", (args: QueryArgs) => [target]);
    assert !IsAdministrator(target) by { assert |Administrator| != |"subscriber"|; }
    assert found.Success? && |found.value| == 1;
    assert found.value[0] == SearchResult(5, "target5name", "t5@example.org", false, true);
    assert found.value == [found.value[0]];
    login := CheckIfBlocked(blocker.stored, AuthUser(target), "target5name", "secret");
  }
}
