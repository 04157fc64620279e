# Block User Login — a Dafny model of the blocked-user registry

Block User Login is a WordPress plugin. An administrator uses it to search
for site users and to block or unblock them. A blocked user can no longer
log in. The plugin keeps one piece of state: the option
`user_access_blocker_users`. It maps a user ID to the time that user was
blocked.

This project models the plugin class `User_Access_Blocker` in
`block-user-login.php`:

- `wrappers.dfy` (module `Wrappers`): `Option`, and `Result` for the JSON
  success and error replies.
- `host.dfy` (module `Host`): what the plugin receives from WordPress. This
  covers users (`WpUser`) and the directory behind `get_userdata` (a map from
  ID to user). It also covers the AJAX request context: the nonce verdict,
  the `manage_options` capability and the current user ID. Then the value
  passed through the `authenticate` filter (a user, an error or `null`), and
  the arguments of `WP_User_Query`.
- `registry.dfy` (module `Registry`): the stored option and
  `get_blocked_users`. The option is named `user_access_blocker_users`. An option that is unset, or that holds something other
  than an array, reads as the empty registry.
- `login_gate.dfy` (module `LoginGate`): the `authenticate` filter
  `check_if_blocked`.
- `handlers.dfy` (module `Handlers`): the three AJAX handlers, as methods of
  the class `UserAccessBlocker`. The class has one field, `stored`, the
  option's value. Block and unblock load the registry, change one key and
  write it back. Search reads the registry and builds its result list in a
  loop. Each method is specified by pure functions: `BlockRejection`,
  `UnblockRejection` and `SearchRejection` give the error reply, and
  `AfterBlock` and `AfterUnblock` give the new option. Each handler's checks
  run in a fixed order, and the first one that fails ends the request. The
  rejection functions state this as a property: the error returned is the
  lowest-ranked check that fails, and every check ranked before it passes.
  `BlockAllowed`, `UnblockAllowed` and `SearchAllowed` are definitions: they
  hold when none of a handler's checks fails.
- `properties.dfy` (module `Properties`): how requests combine with later
  logins and searches. It also covers any sequence of block and unblock
  requests. For each user it gives a reference definition (`BlockedAfter`)
  that tracks "is blocked" without the registry, and proves that the
  registry and the login gate agree with it.

Inputs that stand in for the host:

- The nonce verdict and the capability are booleans.
- The current user ID is a number.
- The directory is a map.
- `WP_User_Query` is a function from query arguments to a list of users.
- `time()` is passed as parameters. `ajax_block_user` reads it twice: once
  for the stored timestamp (line 177) and once for the reported `blocked_on`
  (line 187). The model takes two values, `now` and `shownAt`.

Behaviour of the code that the model follows as written:

- Block and unblock both check the nonce, the `manage_options` capability
  and `user_id > 0` before anything else.
- The search handler rejects an empty term on the server, not only in the
  browser. PHP's `empty()` also holds for the string `"0"`, so a search for
  `"0"` is rejected with "Search term is required" (`IsEmptyTerm`).
- Unblock never checks that the user exists or is an administrator. It only
  checks that the ID is a registry key.
- A failed write of the option is not an error in the code. Block and
  unblock ignore the return value of `update_option` (lines 179 and 216), so
  they report success even when the option keeps its old value. The model
  assumes every write succeeds.

## Model

| member | source | states |
|---|---|---|
| `Registry.GetBlockedUsers` | block-user-login.php:297-300 | A stored array is returned as it is. An unset option and a non-array value both give the empty registry. |
| `Registry.LoadAfterSave` | block-user-login.php:297-300 | Loading a registry that was just saved returns that same registry. |
| `Registry.SaveOfLoadIsInvisible` | block-user-login.php:297-300 | Saving what was just loaded changes nothing that a later load can see. When the option already held an array, the stored value is unchanged too. |
| `LoginGate.CheckIfBlocked` | block-user-login.php:276-294 | A value that is not a user (an error or `null`) passes through unchanged. For a user, the result is an error iff the user's ID is a registry key, and that error is `block-user-login` with the untranslated message. Any other user passes through unchanged. |
| `Handlers.BlockRejection` | block-user-login.php:141-172 | The result is none iff every block check passes. Otherwise it is a failing check, and every check ranked before it passes. The order is: nonce, capability, `user_id > 0`, user exists, not yourself, not an administrator. |
| `Handlers.AfterBlock` | block-user-login.php:174-179 | A rejected block leaves the option unchanged. An accepted block stores an array whose keys are the old keys plus the target. The target maps to `now` and every other entry is kept. Re-blocking a user only replaces the timestamp. |
| `Handlers.UserAccessBlocker.AjaxBlockUser` | block-user-login.php:139-190 | The new option is `AfterBlock` of the old one. The method fails iff a check fails, and then returns the `BlockRejection` error. On success it returns "User blocked successfully" with the target's id, login, e-mail and the display time. |
| `Handlers.UnblockRejection` | block-user-login.php:193-223 | The result is none iff every unblock check passes. Otherwise it is the earliest failing check in the order: nonce, capability, `user_id > 0`, ID is a registry key. |
| `Handlers.AfterUnblock` | block-user-login.php:212-216 | A rejected unblock leaves the option unchanged. An accepted one stores exactly the old entries without the target. |
| `Handlers.UserAccessBlocker.AjaxUnblockUser` | block-user-login.php:193-224 | The new option is `AfterUnblock` of the old one. The method fails iff a check fails, and then returns the `UnblockRejection` error. On success it returns "User unblocked successfully" and the ID. |
| `Handlers.SearchRejection` | block-user-login.php:227-243 | The result is none iff every search check passes. Otherwise it is the earliest failing check in the order: nonce, capability, non-empty term. |
| `Handlers.Annotate` | block-user-login.php:257-267 | The result row copies the user's id, login and e-mail. `is_admin` holds iff `administrator` is among the user's roles. `is_blocked` holds iff the ID is a registry key. |
| `Handlers.UserAccessBlocker.AjaxSearchUsers` | block-user-login.php:227-273 | The method fails iff a check fails, and then returns the `SearchRejection` error. Otherwise it returns one row per user the query found, in order, each annotated against the registry. If the query's reply honours its arguments (`Honours`), there are at most 10 rows and none is the caller. The option is not written. |
| `Properties.BlockDeniesLogin` | block-user-login.php:175-179 | After a successful block, the target's next login fails with the blocked error. |
| `Properties.UnblockAfterBlockRestoresLogin` | block-user-login.php:213-216 | After a successful block, an unblock of the same user by a caller with a valid nonce and the capability succeeds. The registry then equals the old one without that user, and the user's login passes through unchanged. |
| `Properties.SearchReflectsBlockAndUnblock` | block-user-login.php:259 | A search right after the block reports the target as blocked. After the unblock it reports them as not blocked. |
| `Properties.OtherLoginsUnaffected` | block-user-login.php:176 | Blocking or unblocking one user never changes what the gate does for another user. |
| `Properties.AdministratorNeverBlocked` | block-user-login.php:170-172 | Blocking an administrator never changes the option. Once the earlier checks pass, the error is `AdministratorProtected`, whose message is "Administrators cannot be blocked". |
| `Properties.SelfNeverBlocked` | block-user-login.php:165-167 | The caller's own ID is never blocked. Once the earlier checks pass, the error is `CannotBlockYourself`, whose message is "You cannot block yourself". |
| `Properties.ReblockReplacesTimestamp` | block-user-login.php:176-178 | Re-blocking a blocked user keeps the same keys and replaces that user's timestamp. |
| `Properties.UnblockOfUnblockedIsError` | block-user-login.php:221-223 | Unblocking an ID that is not in the registry leaves the option unchanged. Once the earlier checks pass, the error is `UserNotBlocked`, whose message is "User is not blocked". |
| `Properties.UnblockIgnoresDirectory` | block-user-login.php:205-216 | Any registry key can be unblocked by a caller who passes the request checks, whatever the directory says about that user. |
| `Properties.ApplyKeepsOnlyBlockableUsers` | block-user-login.php:159-179 | One block or unblock request keeps every registry key a known, non-administrator user. |
| `Properties.ReplayKeepsOnlyBlockableUsers` | block-user-login.php:159-179 | Over any sequence of requests against an unchanging directory, no administrator and no unknown ID ever enters a registry that started without them. |
| `Properties.ApplyMatchesEffect` | block-user-login.php:174-216 | One request changes whether an ID is a registry key exactly as the reference `Effect` says. |
| `Properties.ReplayMatchesBlockedAfter` | block-user-login.php:174-216 | After any sequence of requests, an ID is a registry key exactly when the reference `BlockedAfter` says it is blocked. |
| `Properties.LoginAfterReplay` | block-user-login.php:286-293 | After any sequence of requests, the gate denies a user iff the last request about them that took effect was a block, or, if there was none, iff they were blocked at the start. Otherwise it returns the user unchanged. |
| `Properties.AdministratorLoginNeverBlocked` | block-user-login.php:170-172 | With an unchanging directory and a registry that starts without administrators, the gate always lets an administrator through. |
| `Properties.BlockSearchLoginScenario` | block-user-login.php:139-294 | Start from an unset option. Administrator 1 blocks user 5. A search then reports user 5 as blocked and not an administrator, and user 5's login is denied. |

## Left out

- Admin page rendering, menu registration and asset enqueueing (`render_admin_page`, `add_admin_menu`, `enqueue_admin_scripts`): they produce HTML and register assets.
- The constructor's hook wiring and `get_instance`: host lifecycle plumbing. The model's constructor only sets up the stored option.
- `user_access_blocker_activate`: it writes CSS and JavaScript files to disk, which is I/O.
- `wp_verify_nonce`, `current_user_can` and `get_current_user_id`: they are inputs (`Context`), not modelled.
- `WP_User_Query`: the query engine, with its substring matching and case handling, is a function parameter. The model states what the handler asks of it (`SearchArgs`). The promise of at most 10 users and no caller is conditional on `Honours`.
- `sanitize_text_field`, `wp_unslash` and `intval`: the model receives the parsed user ID and the sanitised term. A missing `user_id` arrives as 0.
- The formatting of `blocked_on` with `gmdate`: the model returns the raw second `time()` value instead.
- The `message` strings of the handlers' replies are modelled, but the JSON encoding and the request termination of `wp_send_json_*` are not. Early termination becomes an early `return`.
- Two requests writing the option at the same time can lose an update. This is concurrency; the model handles requests one after another.
- `assets/js/admin.js`: browser code for the DOM, the 500 ms search debounce and the 3-character minimum.
- `__()` translation of the blocked message: the model returns the English text.
- A failing `update_option` write, and stored arrays of other shapes. The model assumes every write succeeds; in the code a failed write leaves the old option in place while the handler still reports success. The model also assumes every stored array has integer keys and `{timestamp}` records. It cannot express a `null` entry, which `isset` (lines 214, 259 and 286) treats as absent.
- Users deleted from the directory, or promoted to administrator, after being blocked: `ReplayKeepsOnlyBlockableUsers` assumes one unchanging directory.
