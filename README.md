# AFK bot connection controller, modelled in Dafny

This project models the core of an AFK bot for a Minecraft server (`index.js`).
The bot connects with one user name. It authenticates through chat commands and
watches the chat to see whether registration and login worked. It moves now and
then so the server does not kick it as idle. On every disconnect it reconnects
with exponential backoff, and when the server rejects its name as already in
use it tries an alternate name.

The modules follow the parts of `index.js`:

- `Backoff` (backoff.dfy): `computeDelay`, that is `min(BASE_DELAY * 2^attempt, MAX_DELAY)` plus a jitter below `reconnectJitterMs || 1000`.
- `Rand` (rand.dfy): `Math.floor(Math.random() * n)`, where the random draw is an input `u` with `0 <= u < 1`.
- `Template` (template.dfy): `formatTemplate`, a one-pass substitution of `{user}` and `{pass}`.
- `Text` (text.dfy): the string operations the regular expressions are built from. These are lower-casing, substring search, and `a.*b` (a word followed later on the same line by another).
- `Detector` (detector.dfy): the chat grammar of `onChatJson` and the kick-reason test for a name collision. Each regular expression is kept as its table of alternatives.
- `Session` (session.dfy): the class `Controller`. Its fields are the module globals (`connected`, `reconnectAttempt`, `moving`, `lasttime`, `lastaction`, `shuttingDown`, `state.registered`, `ALT_USERNAMES`, `bot`), the pending timers and a ghost log of effects. It has one method per event handler, plus `cleanupBot`, `scheduleReconnect`, `shutdown` and the three kinds of timer callback.
- `Scenarios` (scenarios.dfy): runs of the controller proved from its contracts alone. They cover a first run (register, login, confirmation), a registered run, a repeated spawn, a collision kick, shutdown during backoff, three errors in a row, and the AFK cycle.

Each `createBot` call makes a closure holding its own user name, its own `pendingRegister` and `pendingLogin`, and its own listeners. The model therefore keeps every connection ever created in `conns`, indexed by creation order. `bot` is the index of the connection the global `bot` refers to, or none. The handlers act on the global `bot`, as the JavaScript does. That is not always the connection whose event is running.

Behaviour of `index.js` worth knowing:

- "already registered" and "registered before" are listed as failure phrases, but the success test runs first and matches "registered" inside them, so they confirm registration (`Detector.AlreadyRegisteredConfirms`).
- A name-collision kick runs both `kicked` listeners, so a backoff reconnect with the primary name is scheduled as well as the fallback (`Session.Controller.Kicked`).
- When the fallback timer and then the backoff timer fire, the second `createBot` overwrites `bot` without tearing down the first. So two connections can be live at once (`Scenarios.CollisionKick`).
- `username .* taken` needs a space on each side of the gap, so "Username taken" is not a name collision (`Detector.UsernameTakenDoesNotCollide`). "Username already taken" is one.
- Shutdown cancels no timer. A pending reconnect checks `shuttingDown` itself, and a fallback is stopped by the check inside `createBot`.
- Every `spawn` sends the commands again (`Scenarios.SpawnTwice`). `moving`, `lasttime` and `lastaction` are never reset on reconnect (`Scenarios.AfkCycle`).
- `pendingRegister` and `pendingLogin` are set only when `bot.chat` did not throw, and the login command goes to whatever connection `bot` is when the timer fires.
- The jitter is strictly below its bound: `floor(u * jitterMs) < jitterMs`.

## Model

| member | source | states |
|---|---|---|
| `Rand.ScaledFloor` | index.js:61 | `Math.floor(u * n)` for a draw `0 <= u < 1` is a whole number below `n` (0 when `n` is 0). |
| `Backoff.Pow2` | index.js:60 | `Math.pow(2, n)` for a whole `n` is at least 1, and at least 2 once `n > 0`. |
| `Backoff.Exponential` | index.js:60 | The exponential part is the smaller of `base * 2^attempt` and the cap: never above either, and equal to one of them. |
| `Backoff.ComputeDelay` | index.js:59-63 | The delay is at least the exponential part and below it plus the jitter bound, so below `MAX_DELAY + jitterMs`. With no jitter it is exactly the exponential part. |
| `Backoff.ExponentialMonotone` | index.js:60 | The exponential part never shrinks as the attempt count grows. |
| `Backoff.ExponentialSaturates` | index.js:60 | Once the exponential part has reached the cap, every later attempt stays at the cap. |
| `Backoff.ExponentialDoubles` | index.js:60 | Below the cap, each further attempt doubles the exponential part. |
| `Backoff.DelayBounds` | index.js:59-63 | For any two jitter draws, a later attempt's delay is at least an earlier attempt's exponential part, and every delay is below `cap + jitterMs`. |
| `Template.Value` | index.js:69 | `ctx[p1]`, or '' when that is falsy: a present value is emitted as itself, and the substituted text is empty exactly when the value is missing or empty. |
| `Template.Format` | index.js:68-70 | `formatTemplate` returns a template with no `{user}`/`{pass}` unchanged. |
| `Template.FormatIdentity` | index.js:68-70 | Substituting `{user}` by "{user}" and `{pass}` by "{pass}" gives every template back unchanged. |
| `Template.FormatAppend` | index.js:68-70 | The left-to-right scan of `a + b` splits where `a` ends, whenever no placeholder can start in `a`'s last five characters. |
| `Template.FormatBeforeBrace` | index.js:68-70 | For every prefix `a`, the scan of `a + r` splits where `r` starts whenever `r` starts with `{`: no placeholder can start in `a` and end in `r`. |
| `Template.FormatSinglePass` | index.js:69 | For every `a` and `b`, `a + "{user}" + b` becomes the formatted `a`, then the user value, then the formatted `b` (and likewise for `{pass}`). The value is emitted verbatim and not rescanned, and a missing or empty value gives "". With `Format`'s clause for templates without placeholders, this fixes the result for every template: split at its placeholders, the pieces are copied and each placeholder becomes its value. |
| `Template.DefaultRegisterCommand` | index.js:20 | The default `/register {user} {pass}` becomes "/register " + user + " " + password. |
| `Template.DefaultLoginCommand` | index.js:21 | The default `/login {pass}` becomes "/login " + password. |
| `Text.ToLower` | index.js:81 | `toLowerCase()` keeps the length, leaves no upper-case ASCII letter, maps each such letter to its lower-case form and changes nothing else. |
| `Text.Contains` | index.js:85 | A regular expression that is a plain word matches exactly when the word occurs at some position of the text. |
| `Text.FollowedOnLine` | index.js:182 | `a.*b` matches exactly when `a` occurs and `b` occurs at or after its end with no line terminator in between. |
| `Detector.MatchesAny` | index.js:85 | An alternation of words matches exactly when one of its words occurs in the text. |
| `Detector.RegisterOutcome` | index.js:84-91 | Success tested before failure: a pending registration is confirmed exactly when the lower-cased line contains "registered" or "registration", and rejected exactly when it contains neither but contains "passwords do not match", "error" or "failed". |
| `Detector.AlreadyRegisteredConfirms` | index.js:85-88 | A line with "already registered" or "registered before" confirms registration, because the success test runs first. |
| `Detector.IsLoginSuccess` | index.js:94 | A pending login is confirmed exactly when the line contains "logged in", "welcome" or "login successful". |
| `Detector.YouAreRegisteredConfirms` | index.js:81-85 | "You are registered!" confirms a pending registration. |
| `Detector.UsernameAlreadyTakenCollides` | index.js:181-182 | The kick reason "Username already taken" is a name collision. |
| `Detector.UsernameTakenDoesNotCollide` | index.js:181-182 | The kick reason "Username taken" is not a name collision. |
| `Detector.IsNameCollision` | index.js:182 | The collision pattern matches exactly when "name" is followed on one line by "in use", or "username " by " taken", or "duplicate name" occurs; an empty text never matches. |
| `Session.OrDefault` | index.js:120 | `registerToLoginDelayMs`, or 2000 when that is falsy (the same rule gives `reconnectJitterMs`, or 1000): a positive configured value is used, a missing value or 0 gives the default, and a positive default gives a positive result. |
| `Session.JitterMs` | index.js:61 | The jitter bound (`reconnectJitterMs`, or 1000 when absent or 0) is always positive, is the configured value when that is positive, and is 1000 when it is absent or 0. |
| `Session.ReconnectDelay` | index.js:204 | A reconnect delay is at least the exponential part for its attempt and below `MAX_DELAY + jitterMs`. |
| `Session.FallbackDelay` | index.js:186 | The fallback delay lies in [1000, 3000) ms. |
| `Session.UserFor` | index.js:74 | A non-empty override name is used; a missing or empty one falls back to `USERNAME`. |
| `Session.AltsAfter` | index.js:182-183 | A kick removes exactly the front name of `ALT_USERNAMES` when the reason is a name collision and a name is left; otherwise the list is unchanged. The list changes exactly in that case. |
| `Session.Collides` | index.js:181-182 | A missing reason counts as '' and is never a name collision; a present one is tested after lower-casing. |
| `Session.FallbackTimers` | index.js:182-186 | A fallback is scheduled exactly when the reason is a name collision and an alternate name is left. It is for the front name, with a delay in [1000, 3000). |
| `Session.Releases` | index.js:194 | The `forEach` releases each listed action, in order, on the given bot. |
| `Session.TeardownReleasesAll` | index.js:191-199 | Tearing down a bot releases all four actions, removes its listeners and quits it. |
| `Session.Controller.constructor` | index.js:45-66 | Start-up: the globals take their initial values (`lasttime = -1`, nothing moving, not connected, attempt 0), `registered` is the persisted value, the alternate names are the given list (which is also the start-up list `Valid` refers to), and the first `createBot()` opens connection 0 with the primary name. |
| `Session.Controller.CreateBot` | index.js:72-76 | Once shutting down, nothing happens. Otherwise a new listening connection with the override name (or `USERNAME` when it is missing or empty) becomes `bot`, and the previous `bot` is not torn down. |
| `Session.Controller.CleanupBot` | index.js:191-199 | `bot` ends up null. If it was set, its four controls are released, its listeners removed and it is quit; if it was already null, nothing else changes. |
| `Session.Controller.ScheduleReconnect` | index.js:201-207 | Once shutting down, nothing happens. Otherwise the attempt counter goes up by exactly one before the delay is computed, and one reconnect timer is queued for the new count. |
| `Session.Controller.Disconnect` | index.js:154-173 | The shared teardown: `connected` becomes 0, the global bot is torn down, and a backoff reconnect is scheduled unless shutting down. |
| `Session.Controller.End` | index.js:154-159 | An `end` on a connection whose listeners were removed changes nothing. Otherwise it runs the shared teardown and backoff. |
| `Session.Controller.Error` | index.js:168-173 | On a live connection an `error` behaves like `end`. On a connection whose listeners `cleanupBot` removed (index.js:195), no `error` listener is left, so the event throws (`Threw`) and nothing else changes. |
| `Session.Controller.Kicked` | index.js:161-188 | A kick runs the backoff teardown and then the collision listener. On a collision with names left, a backoff reconnect (unless shutting down) and a fallback for the front name are queued, in that order. |
| `Session.Controller.TryAlternate` | index.js:180-188 | Run after the first `kicked` listener has set `bot` to null: on a name collision with a name left, it pops exactly the front alternate name and queues one fallback `createBot(next)` 1000-2999 ms later; otherwise it changes nothing. |
| `Session.Controller.Spawn` | index.js:106-128 | `connected` becomes 1 and the attempt count resets to 0. Unregistered: the register command is sent at once, setting `pendingRegister` only if the send succeeded, and one login timer is queued for `registerToLoginDelayMs` (2000 when absent or 0). Registered: no register command, and one login timer for `LOGIN_DELAY_MS`. |
| `Session.Controller.Message` | index.js:79-100 | `registered` becomes true on a confirmation and is never set back to false. A pending registration is cleared on confirmation or rejection. A pending login is cleared only on a login-success line, independently of the registration check. |
| `Session.Controller.Time` | index.js:131-152 | Nothing happens while not connected. With a null bot the handler throws. The first tick only records `lasttime`. Later ticks more than `interval` after `lasttime` toggle `moving`: pressing a new action on 0 to 1, releasing the same `lastaction` on 1 to 0, and setting `lasttime` to the age. |
| `Session.Controller.Shutdown` | index.js:212-218 | Afterwards `shuttingDown` holds and `bot` is null. A second call changes nothing. |
| `Session.Controller.FireLogin` | index.js:117-120 | The login command, formatted with the scheduling connection's name, goes to the current bot. That connection's `pendingLogin` is set only when the send succeeded. |
| `Session.Controller.FireReconnect` | index.js:206 | A backoff reconnect opens a connection with the primary `USERNAME`, or nothing when shutting down. |
| `Session.Controller.FireFallback` | index.js:186 | A fallback opens a connection with the alternate name, or nothing when shutting down. |

`Session.Controller.Valid` is the invariant every handler keeps. It says:

- `connected` and `moving` are 0 or 1.
- A held move has an action.
- `bot` names an existing, listening connection.
- Shutting down implies `bot` is null.
- The alternate names still left are a suffix of the start-up list, the list given to the constructor.
- Every login timer belongs to an existing connection.

## Left out

- `keep_alive.js`, the Express health endpoint: I/O only.
- The Mineflayer client is out. Creating a bot, `chat`, `look`, `setControlState`, `activateItem`, `removeAllListeners` and `quit` are effects in a ghost log. Events are method calls, and a failing `chat` is a boolean input.
- The `fs` parts are out: reading `config.json`, reading and writing `state.json` (a write failure is only logged), and `logs/bot.log`. The persisted state is the boolean `registered`, and `saveState` is a logged effect.
- Environment and config resolution (index.js:11-25, 51-57) is out: the resolved values are inputs. The exceptions are `registerToLoginDelayMs || 2000` and `reconnectJitterMs || 1000`, which the handlers resolve where they use them.
- `Math.random` draws are real inputs in [0, 1). Floating point is not modelled: integers are unbounded, and `Math.pow` and `Math.floor` are exact.
- The look angles are not modelled. The movement threshold `moveinterval * 20 + randomadd` is a real input.
- Timers fire in any order. Ordering by due time, and Node's clamping of delays outside 1 to 2^31-1 ms, are not modelled.
- `process.exit` after a shutdown, and the process termination that follows an uncaught throw (the `time` handler on a null `bot`, or an `error` event on a torn-down bot), are not modelled: the throw is logged as `Threw`. Events can still arrive afterwards, so the shutdown guards of `scheduleReconnect`, the reconnect timer and `createBot` are all exercised.
- `Text.ToLower`: only ASCII letters are lower-cased. Non-ASCII case mapping of `toLowerCase` is not modelled.
- The kick reason and chat line are strings. A non-string reason, and `jsonMsg.toString()` of a chat message object, are not modelled.
- The `login` listener (index.js:104) and every `log(...)` call only write logs.
