# Delivery of su events to the manager application

A Dafny model of `native/jni/su/connect.cpp` from Magisk. This is how the su
daemon tells the manager app about three things: a log entry (`app_log`), a
notification (`app_notify`) and a pending request on a socket (`app_socket`).
No direct channel to the app exists, so the daemon starts `app_process` with
one of two framework tools:

- `content call` on the manager's provider;
- `am start` on one of the manager's activities.

It passes the event's typed parameters as command-line arguments and decides
from the child's output whether to fall back to the next method.

Modules, one per component of the source file:

- `CArith`: the C `int` range, and C's `/` and `%`, which truncate toward
  zero (Dafny's operators are Euclidean).
- `Decimal`: the `%d` rendering `IntToString` and its inverse `ParseInt`.
- `Extras`: the `Extra` parameter as a tagged datatype, with its two
  encodings:
  - `add_intent` gives `--ei/--ez/--es key value`;
  - `add_bind` gives `--extra key:t:value`.

  It also holds the decoders that invert them, and `ArgVector`, the
  caller's `vector<const char *>`. `AddIntent` and `AddBind` extend that
  vector in place.
- `Access`: the fields of `su_info` and of the request that are read here,
  and the `get_user`, `get_uid` and `get_cmd` rules.
- `Dispatcher`: `check_error`, the three-tier decision (`Tiers`, `Dispatch`)
  and `ExecCmd`. `ExecCmd` builds the argument vectors step by step. It
  rewrites slots 4 and 5 of the activity vector in place between tiers,
  because slot 5 points at the shared `target` buffer. It returns at the
  first tier that succeeds.
- `CallSites`: `app_log`, `app_notify` and `app_socket`, each as the
  `Delivery` it sets up: the action, the parameters, the ceiling, and whether
  it runs in a detached child.

Spawning is abstracted. Each child started is recorded as an `Invocation`
holding three things:

- its argv;
- the `CLASSPATH` set in the child;
- `Sync` (the dispatcher waits and reads the output) or `Async`
  (fire and forget).

The lines a synchronous child prints on stdout and stderr are inputs to
`ExecCmd`. There is one sequence of lines per synchronous tier:
`providerOut` and `activityOut`.

`exec_cmd` ignores the status that `exec_command_sync` returns
(native/jni/su/connect.cpp:131 and :151). Only an output line starting with
`Error` counts as failure, so a child that prints nothing counts as success.
The model keeps that rule.

## Model

| member | source | states |
|---|---|---|
| `CArith.CDiv` | native/jni/su/connect.cpp:33-35 | C division by a positive divisor truncates toward zero: the quotient brackets the dividend from below for a non-negative dividend and from above for a negative one |
| `CArith.CRem` | native/jni/su/connect.cpp:37-39 | C remainder: quotient times divisor plus remainder is the dividend, and the remainder has the dividend's sign and is smaller than the divisor in magnitude |
| `Decimal.NatToString` | native/jni/su/connect.cpp:68 | the digits of a natural number are all decimal digits, there is at least one, and there is no leading zero unless the number is 0 |
| `Decimal.NatToStringValue` | native/jni/su/connect.cpp:68 | the digits denote exactly the number rendered |
| `Decimal.IntToString` | native/jni/su/connect.cpp:68 | `%d`: a leading '-' exactly for negative values, then digits with no leading zero; the result is "0" exactly for 0 |
| `Decimal.IntToStringRoundTrip` | native/jni/su/connect.cpp:68 | parsing the rendering of any integer, negative and zero included, gives that integer back |
| `Decimal.IntToStringInjective` | native/jni/su/connect.cpp:68 | distinct integers render as distinct strings |
| `Extras.AddIntent` | native/jni/su/connect.cpp:63-82 | appends exactly the three tokens type flag, key, value literal to the caller's vector; nothing already there changes |
| `Extras.AddBind` | native/jni/su/connect.cpp:84-98 | appends exactly `--extra` and `key:t:value` to the caller's vector; nothing already there changes |
| `Extras.LiteralRoundTrip` | native/jni/su/connect.cpp:66-78 | the literal of an Int, Bool or String value, read back under its type letter, gives the value back: decimal for Int, "true"/"false" for Bool, the string unchanged |
| `Extras.IntentRoundTrip` | native/jni/su/connect.cpp:63-82 | the flag, key and value tokens of `add_intent` decode back to the same parameter, for every type |
| `Extras.BindRoundTrip` | native/jni/su/connect.cpp:84-98 | the `key:t:value` token of `add_bind` decodes back to the same parameter whenever the key has no ':' |
| `Extras.EncodingsAgree` | native/jni/su/connect.cpp:86-94 | the binding token embeds after `key:t:` the very literal `add_intent` emits as the value token |
| `Extras.ConcatMapSnoc` | native/jni/su/connect.cpp:121-123 | encoding one more parameter appends exactly its tokens after those of the earlier ones |
| `Extras.IntentArgsRoundTrip` | native/jni/su/connect.cpp:137-139 | the activity tokens of a whole parameter list decode back to that list, in order |
| `Extras.BindArgsRoundTrip` | native/jni/su/connect.cpp:121-123 | the provider tokens of a whole parameter list whose keys have no ':' decode back to that list, in order |
| `Extras.ArgVector.PushBack` | native/jni/su/connect.cpp:80-81 | `push_back` appends one token at the end and changes nothing else |
| `Extras.ArgVector.Set` | native/jni/su/connect.cpp:157-158 | overwriting one slot of the vector changes that slot only |
| `Access.GetUser` | native/jni/su/connect.cpp:33-35 | in per-user mode the user is the one whose block of 100000 uids holds the uid (C division); in any other mode it is 0 |
| `Access.GetUid` | native/jni/su/connect.cpp:37-39 | in owner-managed mode the reported uid is the uid's offset in its block of 100000 (C remainder, same sign as the uid); in any other mode it is the uid unchanged |
| `Access.UserAndOffsetRecombine` | native/jni/su/connect.cpp:33-39 | the per-user selector times 100000 plus the owner-managed offset gives the uid back |
| `Access.Uid1000050` | native/jni/su/connect.cpp:33-39 | uid 1000050: user 10 in per-user mode, 0 in owner-only mode; reported uid 50 in owner-managed mode, 1000050 otherwise |
| `Access.GetCmd` | native/jni/su/connect.cpp:41-42 | the command if non-empty, else the shell if non-empty, else the default shell; always exactly one of the three and never empty |
| `Dispatcher.CheckError` | native/jni/su/connect.cpp:101-109 | success exactly when no output line starts with the 5 characters "Error"; empty output is success |
| `Dispatcher.ProviderHeader` | native/jni/su/connect.cpp:22-24 | the CALL_PROVIDER prefix: 10 tokens running the content tool's `call`, with the target after `--uri`, the user after `--user` and the action after `--method` |
| `Dispatcher.ActivityHeader` | native/jni/su/connect.cpp:26-29 | the START_ACTIVITY prefix: 15 tokens running the am tool's `start`, with the flag at index 4, the target at 5, the user after `--user`, the flags 0x18000020, and the action as the `--es action` extra |
| `Dispatcher.ProviderUri` | native/jni/su/connect.cpp:119 | `content://`, then the manager package, then `.provider` |
| `Dispatcher.ComponentTarget` | native/jni/su/connect.cpp:158 | the manager package followed by `/a.m` |
| `Dispatcher.Tiers` | native/jni/su/connect.cpp:117-161 | one to three tiers are attempted, and the last one either succeeded or is the fire-and-forget activity start |
| `Dispatcher.TierCall` | native/jni/su/connect.cpp:118-160 | only the component-qualified activity start is asynchronous; the provider call runs with content.jar on its CLASSPATH and the activity starts with am.jar |
| `Dispatcher.Dispatch` | native/jni/su/connect.cpp:111-162 | one child per tier attempted, and the last child is either the asynchronous one or a synchronous one whose output had no "Error" line |
| `Dispatcher.ActivityArgvRetarget` | native/jni/su/connect.cpp:148-158 | writing a new flag into slot 4 and a new target into slot 5 of an activity vector gives the vector built for that flag and target |
| `Dispatcher.NamedArgvDiffersOnlyInFlagAndTarget` | native/jni/su/connect.cpp:136-158 | the last-tier argv equals the package-tier argv except index 4 ("-p" to "-n") and index 5 (`<pkg>` to `<pkg>/a.m`) |
| `Dispatcher.ArgvCarriesParameters` | native/jni/su/connect.cpp:120-139 | after its fixed 10-token (provider) or 15-token (activity) prefix, each argv decodes back to the parameter list |
| `Dispatcher.TiersInOrder` | native/jni/su/connect.cpp:111-162 | one to three tiers are attempted, each at most once, in the order provider, package activity, component activity |
| `Dispatcher.ProviderTierGate` | native/jni/su/connect.cpp:118-134 | the provider tier is attempted exactly when mode >= CONTENT_PROVIDER, and then first |
| `Dispatcher.PkgTierGate` | native/jni/su/connect.cpp:148-154 | the `-p` activity tier is attempted exactly when mode >= PKG_ACTIVITY and the provider tier did not already succeed |
| `Dispatcher.StopsAtFirstSuccess` | native/jni/su/connect.cpp:131-161 | every tier before the last failed; the last either succeeded or is the fire-and-forget tier, which runs exactly when no synchronous tier succeeded |
| `Dispatcher.OnlyFinalAttemptIsAsync` | native/jni/su/connect.cpp:156-161 | only the last child can be asynchronous, and it is the `-n <pkg>/a.m` activity start |
| `Dispatcher.ProviderErrorFallsBackToPackage` | native/jni/su/connect.cpp:131-154 | if the provider child prints an "Error" line, the next child is the synchronous `-p <pkg>` activity start |
| `Dispatcher.TierCallShape` | native/jni/su/connect.cpp:111-162 | each tier's child has its tool, CLASSPATH, target and completion: content.jar for the provider URI; am.jar with `-p <pkg>` sync or `-n <pkg>/a.m` async; every child gets the user selector `get_user` (not the normalised uid) after `--user`, and the action after `--method` or `--es action` |
| `Dispatcher.FirstAttempt` | native/jni/su/connect.cpp:117-154 | the first child is the highest tier the ceiling allows |
| `Dispatcher.EveryAttemptCarriesParameters` | native/jni/su/connect.cpp:120-139 | every child started carries the whole parameter list in its tool's encoding |
| `Dispatcher.BuildProviderArgs` | native/jni/su/connect.cpp:119-124 | the CALL_PROVIDER prefix followed by the `add_bind` tokens of every parameter, in order |
| `Dispatcher.BuildActivityArgs` | native/jni/su/connect.cpp:136-140 | a fresh vector holding the START_ACTIVITY prefix followed by the `add_intent` tokens of every parameter, in order |
| `Dispatcher.ExecCmd` | native/jni/su/connect.cpp:111-162 | the children started, with their argv, CLASSPATH and completion, are exactly those of the tier decision `Dispatch` |
| `CallSites.AppLog` | native/jni/su/connect.cpp:164-178 | action "log", ceiling CONTENT_PROVIDER, detached; six parameters with keys from.uid, to.uid, pid, policy, command, notify, carrying the normalised uid, the requested (target) uid `ctx.req.uid`, the pid, the policy, the resolved command, and notify as a boolean |
| `CallSites.AppNotify` | native/jni/su/connect.cpp:180-190 | action "notify", ceiling CONTENT_PROVIDER, detached; parameters from.uid (the normalised uid) and policy (the access policy) |
| `CallSites.AppSocket` | native/jni/su/connect.cpp:192-198 | action "request", ceiling PKG_ACTIVITY, not detached; one String parameter "socket" |
| `CallSites.CallSiteKeysDistinct` | native/jni/su/connect.cpp:164-198 | no call site repeats a parameter key |
| `CallSites.LogAndNotifyTryProviderFirst` | native/jni/su/connect.cpp:164-190 | log and notify deliveries begin with the synchronous provider call on `content://<pkg>.provider`, for the user `get_user` selects, with method "log" or "notify" |
| `CallSites.SocketSkipsProvider` | native/jni/su/connect.cpp:192-198 | a socket delivery never calls the provider; it begins with the synchronous `-p <pkg>` start and falls through to the asynchronous one exactly when that prints an "Error" line |
| `CallSites.CallSiteParametersRecoverable` | native/jni/su/connect.cpp:164-198 | for the delivery of each call site, every child started carries that call site's full parameter list |

## Left out

- `socket_send_request` (native/jni/su/connect.cpp:200-203): it only calls the wire encoders `write_key_token` and `write_string_be`. Those are not part of this model.
- Process creation and waiting are not modelled: `exec_command_sync`, `exec_command`, `fork_dont_care` and `exit(0)`. A child is recorded as an `Invocation`. The fork in `app_log` and `app_notify` is recorded as `Delivery.detached`.
- `setenv("CLASSPATH", ...)` in `pre_exec` is recorded only as `Invocation.classpath`.
- Stream handling is not modelled: `xfdopen`, `fgets`, `fclose`, and `fgets` splitting a line longer than 1023 bytes into chunks. Output is a sequence of whole lines.
- The fixed C buffers are modelled as unbounded strings: `i_buf[16]`, `b_buf[32]`, `target[128]`, `user[4]`. Overflowing them with `sprintf` is undefined behaviour. For example, `app_log` writes `command:s:<command>` into `b_buf[32]`, and a long command overflows it.
- The `nullptr` that ends each argv is not part of the modelled argv.
- A child that hangs blocks the dispatch forever in the source. The model does not represent that.
- The child's exit status is ignored, as in the source.
- The values of the multiuser-mode constants and of `DEFAULT_SHELL` come from headers that are not part of this model. Only their distinctness and the default shell's being non-empty matter here.
- The `su_info` and `su_context` fields that connect.cpp does not read are left out.
- `CompatActivity.kt`: Android activity lifecycle and UI glue. Nothing in it is stated.
