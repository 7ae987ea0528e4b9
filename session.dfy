/**
 * The connection-lifecycle controller of index.js: the module globals
 * (lines 45-49, 58, 65-66, `state.registered`, `ALT_USERNAMES`) and one
 * method per event handler registered by `createBot` (lines 72-189), with
 * `cleanupBot`, `scheduleReconnect` and `shutdown` (lines 191-218).
 *
 * Every `createBot` call opens a connection with its own closure (its user
 * name, its `pendingRegister`/`pendingLogin` flags and its listeners); the
 * global `bot` names the one the handlers act on, which is not always the one
 * whose event is running. Transport calls and timers are effects appended to
 * a ghost log; pending timers are a list from which any entry may fire.
 */
module Session {
  import opened Wrappers
  import Template
  import Backoff
  import Rand
  import Text
  import Detector

  datatype Action = Forward | Back | Left | Right

  /** `actions` (index.js:48). */
  const Actions: seq<Action> := [Forward, Back, Left, Right]

  /**
   * The resolved configuration. The two delays that the source resolves with
   * `|| default` where it uses them are kept raw (`None` when absent).
   */
  datatype Config = Config(
    username: string,                      // USERNAME (index.js:16)
    password: Option<string>,              // config.password
    registerCommand: string,               // REGISTER_CMD (index.js:20)
    loginCommand: string,                  // LOGIN_CMD (index.js:21)
    loginDelayMs: nat,                     // LOGIN_DELAY_MS (index.js:22)
    registerToLoginDelayMs: Option<nat>,   // config.registerToLoginDelayMs (index.js:120)
    baseReconnectMs: nat,                  // BASE_DELAY (index.js:56)
    maxReconnectMs: nat,                   // MAX_DELAY (index.js:57)
    reconnectJitterMs: Option<nat>)        // config.reconnectJitterMs (index.js:61)

  /** `raw || default`: an absent value and 0 both give the default. */
  function OrDefault(raw: Option<nat>, default: nat): (r: nat)
    ensures raw.Some? && raw.value != 0 ==> r == raw.value
    ensures raw.None? || raw.value == 0 ==> r == default
    ensures default > 0 ==> r > 0
  {
    if raw.Some? && raw.value != 0 then raw.value else default
  }

  /** The jitter bound `config.reconnectJitterMs || 1000`. */
  function JitterMs(cfg: Config): (j: nat)
    ensures j > 0
    ensures cfg.reconnectJitterMs.Some? && cfg.reconnectJitterMs.value > 0 ==> j == cfg.reconnectJitterMs.value
    ensures cfg.reconnectJitterMs.None? || cfg.reconnectJitterMs.value == 0 ==> j == 1000
  {
    OrDefault(cfg.reconnectJitterMs, 1000)
  }

  /** The delay `scheduleReconnect` computes for attempt number `attempt`. */
  function ReconnectDelay(cfg: Config, attempt: nat, u: real): (d: nat)
    requires 0.0 <= u < 1.0
    ensures Backoff.Exponential(cfg.baseReconnectMs, cfg.maxReconnectMs, attempt) <= d
    ensures d < cfg.maxReconnectMs + JitterMs(cfg)
  {
    Backoff.ComputeDelay(cfg.baseReconnectMs, cfg.maxReconnectMs, JitterMs(cfg), attempt, u)
  }

  /** `1000 + Math.floor(Math.random() * 2000)` (index.js:186). */
  function FallbackDelay(u: real): (d: nat)
    requires 0.0 <= u < 1.0
    ensures 1000 <= d < 3000
  {
    1000 + Rand.ScaledFloor(u, 2000)
  }

  /** `usernameOverride || USERNAME` (index.js:74). */
  function UserFor(cfg: Config, usernameOverride: Option<string>): (user: string)
    ensures usernameOverride.Some? && usernameOverride.value != "" ==> user == usernameOverride.value
    ensures usernameOverride.None? || usernameOverride.value == "" ==> user == cfg.username
  {
    if usernameOverride.Some? && usernameOverride.value != "" then usernameOverride.value else cfg.username
  }

  /** The closure of one `createBot` call. */
  datatype Conn = Conn(user: string, listening: bool, pendingRegister: bool, pendingLogin: bool)

  /** A `setTimeout` callback waiting to run, with its delay in milliseconds. */
  datatype Timer =
    | LoginTimer(conn: nat, user: string, delay: nat)   // index.js:117-120, 123-126
    | ReconnectTimer(delay: nat)                         // index.js:206
    | FallbackTimer(user: string, delay: nat)            // index.js:186

  /** What the controller does to the outside world, in order. */
  datatype Effect =
    | Created(conn: nat, user: string)          // mineflayer.createBot
    | Chat(conn: nat, text: string)             // a bot.chat that did not throw
    | Schedule(timer: Timer)                    // setTimeout
    | Control(conn: nat, action: Action, on: bool)   // bot.setControlState
    | Look(conn: nat)                           // bot.look at random angles
    | Activate(conn: nat)                       // bot.activateItem
    | Detach(conn: nat)                         // bot.removeAllListeners
    | Quit(conn: nat)                           // bot.quit
    | SaveState(registered: bool)               // saveState(state)
    | Threw(conn: nat)                          // a handler of this connection threw

  /** `actions.forEach(a => bot.setControlState(a, false))`. */
  function Releases(b: nat, acts: seq<Action>): (es: seq<Effect>)
    ensures |es| == |acts|
    ensures forall k :: 0 <= k < |acts| ==> es[k] == Control(b, acts[k], false)
  {
    if acts == [] then [] else [Control(b, acts[0], false)] + Releases(b, acts[1..])
  }

  /** What `cleanupBot` does to the outside world. */
  function TeardownEffects(bot: Option<nat>): seq<Effect> {
    match bot
    case None => []
    case Some(b) => Releases(b, Actions) + [Detach(b), Quit(b)]
  }

  /** The connections after `cleanupBot` removed the listeners of `bot`. */
  function Detached(conns: seq<Conn>, bot: Option<nat>): (cs: seq<Conn>)
    requires bot.Some? ==> bot.value < |conns|
    ensures |cs| == |conns|
  {
    match bot
    case None => conns
    case Some(b) => conns[b := conns[b].(listening := false)]
  }

  /** The timer `scheduleReconnect` adds, unless shutting down. */
  function BackoffTimers(cfg: Config, shuttingDown: bool, attempt: nat, u: real): seq<Timer>
    requires 0.0 <= u < 1.0
  {
    if shuttingDown then [] else [ReconnectTimer(ReconnectDelay(cfg, attempt + 1, u))]
  }

  function Scheduled(ts: seq<Timer>): (es: seq<Effect>)
    ensures |es| == |ts|
    ensures forall k :: 0 <= k < |ts| ==> es[k] == Schedule(ts[k])
  {
    if ts == [] then [] else [Schedule(ts[0])] + Scheduled(ts[1..])
  }

  /** `(reason || '').toLowerCase()` matches the name-collision pattern. */
  predicate Collides(reason: Option<string>)
    ensures reason.None? ==> !Collides(reason)
    ensures reason.Some? ==> (Collides(reason) <==> Detector.IsNameCollision(Text.ToLower(reason.value)))
  {
    Detector.IsNameCollision(Text.ToLower(reason.GetOr("")))
  }

  /** `ALT_USERNAMES` after a kick for `reason`: the front name goes on a collision. */
  function AltsAfter(reason: Option<string>, alts: seq<string>): (r: seq<string>)
    ensures Collides(reason) && alts != [] ==> r == alts[1..]
    ensures !(Collides(reason) && alts != []) ==> r == alts
    ensures r != alts <==> Collides(reason) && alts != []
  {
    if Collides(reason) && alts != [] then alts[1..] else alts
  }

  /** The fallback timer a kick for `reason` schedules, if any. */
  function FallbackTimers(reason: Option<string>, alts: seq<string>, v: real): (ts: seq<Timer>)
    requires 0.0 <= v < 1.0
    ensures |ts| <= 1
    ensures ts != [] <==> Collides(reason) && alts != []
    ensures ts != [] ==> ts[0].FallbackTimer? && ts[0].user == alts[0] && 1000 <= ts[0].delay < 3000
  {
    if Collides(reason) && alts != [] then [FallbackTimer(alts[0], FallbackDelay(v))] else []
  }

  class Controller {
    const cfg: Config
    /** `ALT_USERNAMES` as loaded at start-up. */
    ghost const initialAlts: seq<string>

    var connected: int                // index.js:47
    var reconnectAttempt: nat         // index.js:58
    var moving: int                   // index.js:46
    var lasttime: int                 // index.js:45
    var lastaction: Option<Action>    // index.js:49, `undefined` until the first move
    var shuttingDown: bool            // index.js:66
    var registered: bool              // state.registered
    var altUsernames: seq<string>     // ALT_USERNAMES
    var bot: Option<nat>              // index.js:65, the index of a connection or null
    var conns: seq<Conn>              // every connection created so far
    var timers: seq<Timer>            // pending setTimeout callbacks
    ghost var log: seq<Effect>

    ghost predicate Valid()
      reads this
    {
      Consistent() && (shuttingDown ==> bot.None?)
    }

    /** Valid() but for the shutdown clause, which `shutdown` breaks until its `cleanupBot`. */
    ghost predicate Consistent()
      reads this
    {
      && (connected == 0 || connected == 1)
      && (moving == 0 || moving == 1)
      && (moving == 1 ==> lastaction.Some?)
      && (bot.Some? ==> bot.value < |conns| && conns[bot.value].listening)
      && |altUsernames| <= |initialAlts|
      && altUsernames == initialAlts[|initialAlts| - |altUsernames|..]
      && (forall k :: 0 <= k < |timers| && timers[k].LoginTimer? ==> timers[k].conn < |conns|)
    }

    /**
     * Start-up: the globals' initial values, the persisted `registered`
     * (`loadState`, index.js:29-33), the alternate names, and the first
     * `createBot()` (index.js:224).
     */
    constructor (cfg: Config, registered: bool, alts: seq<string>)
      ensures Valid()
      ensures this.cfg == cfg && this.registered == registered && altUsernames == alts && initialAlts == alts
      ensures connected == 0 && reconnectAttempt == 0 && moving == 0 && lasttime == -1
      ensures lastaction.None? && !shuttingDown && timers == []
      ensures conns == [Conn(cfg.username, true, false, false)] && bot == Some(0)
      ensures log == [Created(0, cfg.username)]
    {
      this.cfg := cfg;
      this.initialAlts := alts;
      this.registered := registered;
      altUsernames := alts;
      connected, reconnectAttempt, moving, lasttime := 0, 0, 0, -1;
      lastaction := None;
      shuttingDown := false;
      bot := None;
      conns := [];
      timers := [];
      log := [];
      new;
      CreateBot(None);
    }

    /**
     * `createBot(usernameOverride)` (index.js:72-76): nothing once shutting
     * down; otherwise a new connection with its listeners becomes `bot`. The
     * previous `bot`, if any, is not torn down.
     */
    method CreateBot(usernameOverride: Option<string>)
      requires Valid()
      modifies this`bot, this`conns, this`log
      ensures Valid()
      ensures old(shuttingDown) ==> bot == old(bot) && conns == old(conns) && log == old(log)
      ensures !old(shuttingDown) ==>
        && conns == old(conns) + [Conn(UserFor(cfg, usernameOverride), true, false, false)]
        && bot == Some(|old(conns)|)
        && log == old(log) + [Created(|old(conns)|, UserFor(cfg, usernameOverride))]
    {
      if shuttingDown {
        return;
      }
      var user := UserFor(cfg, usernameOverride);
      var id := |conns|;
      conns := conns + [Conn(user, true, false, false)];
      bot := Some(id);
      log := log + [Created(id, user)];
    }

    /**
     * `cleanupBot()` (index.js:191-199): releases the four controls of `bot`,
     * removes its listeners, quits it, and leaves `bot` null; with `bot`
     * already null it changes nothing else.
     */
    method CleanupBot()
      requires Consistent()
      modifies this`bot, this`conns, this`log
      ensures Valid()
      ensures bot.None?
      ensures conns == Detached(old(conns), old(bot))
      ensures log == old(log) + TeardownEffects(old(bot))
    {
      if bot.None? {
        return;
      }
      var b := bot.value;
      for i := 0 to |Actions|
        invariant log == old(log) + Releases(b, Actions[..i])
      {
        assert Actions[..i + 1] == Actions[..i] + [Actions[i]];
        ReleasesAppend(b, Actions[..i], Actions[i]);
        log := log + [Control(b, Actions[i], false)];
      }
      assert Actions[..|Actions|] == Actions;
      conns := conns[b := conns[b].(listening := false)];
      log := log + [Detach(b), Quit(b)];
      bot := None;
    }

    /**
     * `scheduleReconnect()` (index.js:201-207): nothing once shutting down;
     * otherwise the attempt counter goes up by one and one reconnect timer
     * is scheduled with the delay for the new count.
     */
    method ScheduleReconnect(u: real)
      requires Valid() && 0.0 <= u < 1.0
      modifies this`reconnectAttempt, this`timers, this`log
      ensures Valid()
      ensures reconnectAttempt == if old(shuttingDown) then old(reconnectAttempt) else old(reconnectAttempt) + 1
      ensures timers == old(timers) + BackoffTimers(cfg, shuttingDown, old(reconnectAttempt), u)
      ensures log == old(log) + Scheduled(BackoffTimers(cfg, shuttingDown, old(reconnectAttempt), u))
    {
      if shuttingDown {
        return;
      }
      reconnectAttempt := reconnectAttempt + 1;
      var t := ReconnectTimer(ReconnectDelay(cfg, reconnectAttempt, u));
      timers := timers + [t];
      log := log + [Schedule(t)];
    }

    /**
     * The body shared by the `end`, `error` and first `kicked` listeners
     * (index.js:154-173): `connected = 0; cleanupBot(); scheduleReconnect()`.
     */
    method Disconnect(u: real)
      requires Valid() && 0.0 <= u < 1.0
      modifies this`connected, this`bot, this`conns, this`log, this`reconnectAttempt, this`timers
      ensures Valid()
      ensures connected == 0 && bot.None?
      ensures conns == Detached(old(conns), old(bot))
      ensures reconnectAttempt == if shuttingDown then old(reconnectAttempt) else old(reconnectAttempt) + 1
      ensures timers == old(timers) + BackoffTimers(cfg, shuttingDown, old(reconnectAttempt), u)
      ensures log == old(log) + TeardownEffects(old(bot)) + Scheduled(BackoffTimers(cfg, shuttingDown, old(reconnectAttempt), u))
    {
      connected := 0;
      CleanupBot();
      ScheduleReconnect(u);
    }

    /** The `end` listener (index.js:154-159). */
    method End(id: nat, u: real)
      requires Valid() && id < |conns| && 0.0 <= u < 1.0
      modifies this`connected, this`bot, this`conns, this`log, this`reconnectAttempt, this`timers
      ensures Valid()
      ensures !old(conns[id].listening) ==>
        connected == old(connected) && bot == old(bot) && conns == old(conns) && log == old(log)
        && reconnectAttempt == old(reconnectAttempt) && timers == old(timers)
      ensures old(conns[id].listening) ==>
        && connected == 0 && bot.None?
        && conns == Detached(old(conns), old(bot))
        && reconnectAttempt == (if shuttingDown then old(reconnectAttempt) else old(reconnectAttempt) + 1)
        && timers == old(timers) + BackoffTimers(cfg, shuttingDown, old(reconnectAttempt), u)
        && log == old(log) + TeardownEffects(old(bot)) + Scheduled(BackoffTimers(cfg, shuttingDown, old(reconnectAttempt), u))
    {
      if !conns[id].listening {
        return;
      }
      Disconnect(u);
    }

    /**
     * The `error` listener (index.js:168-173); the error itself is only
     * logged. On a connection whose listeners `cleanupBot` removed
     * (index.js:195) no `error` listener is left, and an `error` event with
     * no listener throws: that is logged as `Threw(id)`, and nothing else
     * changes.
     */
    method Error(id: nat, u: real)
      requires Valid() && id < |conns| && 0.0 <= u < 1.0
      modifies this`connected, this`bot, this`conns, this`log, this`reconnectAttempt, this`timers
      ensures Valid()
      ensures !old(conns[id].listening) ==>
        connected == old(connected) && bot == old(bot) && conns == old(conns) && log == old(log) + [Threw(id)]
        && reconnectAttempt == old(reconnectAttempt) && timers == old(timers)
      ensures old(conns[id].listening) ==>
        && connected == 0 && bot.None?
        && conns == Detached(old(conns), old(bot))
        && reconnectAttempt == (if shuttingDown then old(reconnectAttempt) else old(reconnectAttempt) + 1)
        && timers == old(timers) + BackoffTimers(cfg, shuttingDown, old(reconnectAttempt), u)
        && log == old(log) + TeardownEffects(old(bot)) + Scheduled(BackoffTimers(cfg, shuttingDown, old(reconnectAttempt), u))
    {
      if !conns[id].listening {
        log := log + [Threw(id)];
        return;
      }
      Disconnect(u);
    }

    /**
     * A `kicked` event runs both listeners, in order (index.js:161-166 then
     * 180-188): the ordinary disconnect and backoff, then the name-collision
     * fallback. `u` and `v` are the two random draws.
     */
    method Kicked(id: nat, reason: Option<string>, u: real, v: real)
      requires Valid() && id < |conns| && 0.0 <= u < 1.0 && 0.0 <= v < 1.0
      modifies this`connected, this`bot, this`conns, this`log, this`reconnectAttempt, this`timers, this`altUsernames
      ensures Valid()
      ensures !old(conns[id].listening) ==>
        connected == old(connected) && bot == old(bot) && conns == old(conns) && log == old(log)
        && reconnectAttempt == old(reconnectAttempt) && timers == old(timers) && altUsernames == old(altUsernames)
      ensures old(conns[id].listening) ==>
        && connected == 0 && bot.None?
        && conns == Detached(old(conns), old(bot))
        && reconnectAttempt == (if shuttingDown then old(reconnectAttempt) else old(reconnectAttempt) + 1)
        && altUsernames == AltsAfter(reason, old(altUsernames))
        && timers == old(timers) + BackoffTimers(cfg, shuttingDown, old(reconnectAttempt), u)
                     + FallbackTimers(reason, old(altUsernames), v)
        && log == old(log) + TeardownEffects(old(bot))
                  + Scheduled(BackoffTimers(cfg, shuttingDown, old(reconnectAttempt), u))
                  + Scheduled(FallbackTimers(reason, old(altUsernames), v))
    {
      if !conns[id].listening {
        return;
      }
      Disconnect(u);
      TryAlternate(reason, v);
    }

    /**
     * The second `kicked` listener (index.js:180-188): on a name collision
     * with an alternate name left, the front name is taken off the list,
     * `cleanupBot` runs, and `createBot(next)` is scheduled 1000 + [0, 2000)
     * ms later; otherwise nothing happens. It runs right after the first
     * `kicked` listener of the same connection (listeners run in the order
     * they were added), whose `cleanupBot` has already set `bot` to null, so
     * its own `cleanupBot` releases nothing.
     */
    method TryAlternate(reason: Option<string>, v: real)
      requires Valid() && bot.None? && 0.0 <= v < 1.0
      modifies this`bot, this`conns, this`log, this`timers, this`altUsernames
      ensures Valid() && bot.None? && conns == old(conns)
      ensures altUsernames == AltsAfter(reason, old(altUsernames))
      ensures timers == old(timers) + FallbackTimers(reason, old(altUsernames), v)
      ensures log == old(log) + Scheduled(FallbackTimers(reason, old(altUsernames), v))
    {
      var text := Text.ToLower(reason.GetOr(""));
      if Detector.IsNameCollision(text) && |altUsernames| > 0 {
        var next := altUsernames[0];
        altUsernames := altUsernames[1..];
        CleanupBot();
        var t := FallbackTimer(next, FallbackDelay(v));
        timers := timers + [t];
        log := log + [Schedule(t)];
      }
    }

    /**
     * The `spawn` listener (index.js:106-128): `connected := 1`, the backoff
     * counter resets, and the commands go out. Unregistered: the register
     * command is sent at once (the connection's `pendingRegister` is set only
     * if `bot.chat` did not throw, `sendOk`) and one login timer is set for
     * `registerToLoginDelayMs || 2000`. Registered: only the login timer,
     * for `LOGIN_DELAY_MS`. Every spawn does this again.
     */
    method Spawn(id: nat, sendOk: bool)
      requires Valid() && id < |conns|
      modifies this`connected, this`reconnectAttempt, this`conns, this`timers, this`log
      ensures Valid()
      ensures !old(conns[id].listening) ==>
        connected == old(connected) && reconnectAttempt == old(reconnectAttempt)
        && conns == old(conns) && timers == old(timers) && log == old(log)
      ensures old(conns[id].listening) ==>
        var user := old(conns[id].user);
        var ctx := Template.Ctx(Some(user), cfg.password);
        var sent := !registered && bot.Some? && sendOk;
        var t := LoginTimer(id, user, if registered then cfg.loginDelayMs else OrDefault(cfg.registerToLoginDelayMs, 2000));
        && connected == 1 && reconnectAttempt == 0
        && conns == (if sent then old(conns)[id := old(conns[id]).(pendingRegister := true)] else old(conns))
        && timers == old(timers) + [t]
        && log == old(log) + (if sent then [Chat(bot.value, Template.Format(cfg.registerCommand, ctx))] else []) + [Schedule(t)]
    {
      if !conns[id].listening {
        return;
      }
      connected := 1;
      reconnectAttempt := 0;
      var user := conns[id].user;
      var t;
      if !registered {
        var regCmd := Template.Format(cfg.registerCommand, Template.Ctx(Some(user), cfg.password));
        if bot.Some? && sendOk {
          log := log + [Chat(bot.value, regCmd)];
          conns := conns[id := conns[id].(pendingRegister := true)];
        }
        t := LoginTimer(id, user, OrDefault(cfg.registerToLoginDelayMs, 2000));
      } else {
        t := LoginTimer(id, user, cfg.loginDelayMs);
      }
      timers := timers + [t];
      log := log + [Schedule(t)];
    }

    /**
     * The `message` listener `onChatJson` (index.js:79-100) on the
     * lower-cased line: a pending registration is confirmed (and persisted)
     * or rejected, and, independently, a pending login is confirmed.
     */
    method Message(id: nat, line: string)
      requires Valid() && id < |conns|
      modifies this`registered, this`conns, this`log
      ensures Valid()
      ensures !old(conns[id].listening) ==>
        registered == old(registered) && conns == old(conns) && log == old(log)
      ensures old(conns[id].listening) ==>
        var c := old(conns[id]);
        var text := Text.ToLower(line);
        var reply := if c.pendingRegister then Detector.RegisterOutcome(text) else Detector.Unrelated;
        && registered == (old(registered) || reply == Detector.Confirmed)
        && log == old(log) + (if reply == Detector.Confirmed then [SaveState(true)] else [])
        && conns == old(conns)[id := c.(
             pendingRegister := c.pendingRegister && reply == Detector.Unrelated,
             pendingLogin := c.pendingLogin && !Detector.IsLoginSuccess(text))]
    {
      if !conns[id].listening {
        return;
      }
      var text := Text.ToLower(line);
      var c := conns[id];
      if c.pendingRegister {
        var reply := Detector.RegisterOutcome(text);
        if reply == Detector.Confirmed {
          registered := true;
          log := log + [SaveState(true)];
          c := c.(pendingRegister := false);
        } else if reply == Detector.Rejected {
          c := c.(pendingRegister := false);
        }
      }
      if c.pendingLogin {
        if Detector.IsLoginSuccess(text) {
          c := c.(pendingLogin := false);
        }
      }
      conns := conns[id := c];
    }

    /**
     * The AFK `time` listener (index.js:131-152). `age` is `bot.time.age`,
     * `interval` stands for `moveinterval * 20 + randomadd` and `pick` for
     * the draw that chooses the action. Nothing while `connected < 1`; with
     * `bot` null the handler throws; the first tick only records `lasttime`;
     * afterwards, once more than `interval` ticks have passed, a held action
     * is released or a new one is pressed.
     */
    method Time(id: nat, age: int, interval: real, pick: real)
      requires Valid() && id < |conns| && 0.0 <= pick < 1.0
      modifies this`lasttime, this`moving, this`lastaction, this`log
      ensures Valid()
      ensures !old(conns[id].listening) || connected < 1 ==>
        lasttime == old(lasttime) && moving == old(moving) && lastaction == old(lastaction) && log == old(log)
      ensures old(conns[id].listening) && connected >= 1 && bot.None? ==>
        lasttime == old(lasttime) && moving == old(moving) && lastaction == old(lastaction)
        && log == old(log) + [Threw(id)]
      ensures old(conns[id].listening) && connected >= 1 && bot.Some? && old(lasttime) < 0 ==>
        lasttime == age && moving == old(moving) && lastaction == old(lastaction) && log == old(log)
      ensures old(conns[id].listening) && connected >= 1 && bot.Some? && old(lasttime) >= 0
              && !((age - old(lasttime)) as real > interval) ==>
        lasttime == old(lasttime) && moving == old(moving) && lastaction == old(lastaction) && log == old(log)
      ensures old(conns[id].listening) && connected >= 1 && bot.Some? && old(lasttime) >= 0
              && (age - old(lasttime)) as real > interval && old(moving) == 1 ==>
        lasttime == age && moving == 0 && lastaction == old(lastaction)
        && log == old(log) + [Control(bot.value, old(lastaction).value, false)]
      ensures old(conns[id].listening) && connected >= 1 && bot.Some? && old(lasttime) >= 0
              && (age - old(lasttime)) as real > interval && old(moving) == 0 ==>
        var a := Actions[Rand.ScaledFloor(pick, 4)];
        lasttime == age && moving == 1 && lastaction == Some(a)
        && log == old(log) + [Look(bot.value), Control(bot.value, a, true), Activate(bot.value)]
    {
      if !conns[id].listening || connected < 1 {
        return;
      }
      if bot.None? {
        log := log + [Threw(id)];
        return;
      }
      var b := bot.value;
      if lasttime < 0 {
        lasttime := age;
      } else if (age - lasttime) as real > interval {
        if moving == 1 {
          log := log + [Control(b, lastaction.value, false)];
          moving := 0;
          lasttime := age;
        } else {
          var a := Actions[Rand.ScaledFloor(pick, 4)];
          log := log + [Look(b), Control(b, a, true), Activate(b)];
          lastaction := Some(a);
          moving := 1;
          lasttime := age;
        }
      }
    }

    /**
     * `shutdown(sig)` (index.js:212-218): idempotent; the first call sets
     * `shuttingDown` and runs `cleanupBot`.
     */
    method Shutdown()
      requires Valid()
      modifies this`shuttingDown, this`bot, this`conns, this`log
      ensures Valid()
      ensures shuttingDown && bot.None?
      ensures old(shuttingDown) ==> conns == old(conns) && log == old(log)
      ensures !old(shuttingDown) ==>
        conns == Detached(old(conns), old(bot)) && log == old(log) + TeardownEffects(old(bot))
    {
      if shuttingDown {
        return;
      }
      shuttingDown := true;
      CleanupBot();
    }

    /**
     * A login timer fires (index.js:117-120, 123-126): the login command,
     * formatted with the name of the connection that scheduled it, goes to
     * the current `bot`; when `bot.chat` does not throw, that connection's
     * `pendingLogin` is set.
     */
    method FireLogin(k: nat, sendOk: bool)
      requires Valid() && k < |timers| && timers[k].LoginTimer?
      modifies this`timers, this`conns, this`log
      ensures Valid()
      ensures timers == old(timers[..k] + timers[k + 1..])
      ensures
        var t := old(timers[k]);
        var cmd := Template.Format(cfg.loginCommand, Template.Ctx(Some(t.user), cfg.password));
        if bot.Some? && sendOk then
          conns == old(conns)[t.conn := old(conns)[t.conn].(pendingLogin := true)]
          && log == old(log) + [Chat(bot.value, cmd)]
        else
          conns == old(conns) && log == old(log)
    {
      var t := timers[k];
      timers := timers[..k] + timers[k + 1..];
      TimersRemoved(old(timers), k);
      var cmd := Template.Format(cfg.loginCommand, Template.Ctx(Some(t.user), cfg.password));
      if bot.Some? && sendOk {
        log := log + [Chat(bot.value, cmd)];
        conns := conns[t.conn := conns[t.conn].(pendingLogin := true)];
      }
    }

    /**
     * A reconnect timer fires (index.js:206): `createBot()` with the primary
     * name, unless shutting down.
     */
    method FireReconnect(k: nat)
      requires Valid() && k < |timers| && timers[k].ReconnectTimer?
      modifies this`timers, this`bot, this`conns, this`log
      ensures Valid()
      ensures timers == old(timers[..k] + timers[k + 1..])
      ensures shuttingDown ==> bot == old(bot) && conns == old(conns) && log == old(log)
      ensures !shuttingDown ==>
        && conns == old(conns) + [Conn(cfg.username, true, false, false)]
        && bot == Some(|old(conns)|)
        && log == old(log) + [Created(|old(conns)|, cfg.username)]
    {
      timers := timers[..k] + timers[k + 1..];
      TimersRemoved(old(timers), k);
      if !shuttingDown {
        CreateBot(None);
      }
    }

    /**
     * A fallback timer fires (index.js:186): `createBot(next)`, which itself
     * does nothing once shutting down.
     */
    method FireFallback(k: nat)
      requires Valid() && k < |timers| && timers[k].FallbackTimer?
      modifies this`timers, this`bot, this`conns, this`log
      ensures Valid()
      ensures timers == old(timers[..k] + timers[k + 1..])
      ensures shuttingDown ==> bot == old(bot) && conns == old(conns) && log == old(log)
      ensures !shuttingDown ==>
        var user := UserFor(cfg, Some(old(timers[k]).user));
        && conns == old(conns) + [Conn(user, true, false, false)]
        && bot == Some(|old(conns)|)
        && log == old(log) + [Created(|old(conns)|, user)]
    {
      var t := timers[k];
      timers := timers[..k] + timers[k + 1..];
      TimersRemoved(old(timers), k);
      CreateBot(Some(t.user));
    }
  }

  /** `cleanupBot` releases every one of the four actions of the bot it tears down. */
  lemma TeardownReleasesAll(b: nat, a: Action)
    ensures Control(b, a, false) in TeardownEffects(Some(b))
    ensures Detach(b) in TeardownEffects(Some(b)) && Quit(b) in TeardownEffects(Some(b))
  {
    var es := TeardownEffects(Some(b));
    var k := match a case Forward => 0 case Back => 1 case Left => 2 case Right => 3;
    assert Actions[k] == a;
    assert es[k] == Control(b, a, false);
    assert es[4] == Detach(b) && es[5] == Quit(b);
  }

  lemma ReleasesAppend(b: nat, acts: seq<Action>, a: Action)
    ensures Releases(b, acts + [a]) == Releases(b, acts) + [Control(b, a, false)]
  {
  }

  /** Removing a timer keeps every other timer. */
  lemma TimersRemoved(ts: seq<Timer>, k: nat)
    requires k < |ts|
    ensures forall t :: t in ts[..k] + ts[k + 1..] ==> t in ts
  {
  }
}
