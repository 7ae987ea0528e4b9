/**
 * Runs of the controller, proved from the methods' contracts alone: what a
 * caller of the event handlers can rely on.
 */
module Scenarios {
  import opened Wrappers
  import Template
  import Detector
  import opened Session
  import Rand

  /** First run: one register command at once, one login command after the delay, then confirmation. */
  method FirstRun(cfg: Config) {
    var c := new Controller(cfg, false, []);
    c.Spawn(0, true);
    var ctx := Template.Ctx(Some(cfg.username), cfg.password);
    var login := LoginTimer(0, cfg.username, OrDefault(cfg.registerToLoginDelayMs, 2000));
    assert c.conns[0].pendingRegister && !c.conns[0].pendingLogin;
    assert c.timers == [login];
    c.FireLogin(0, true);
    assert c.log == [Created(0, cfg.username), Chat(0, Template.Format(cfg.registerCommand, ctx)),
                     Schedule(login), Chat(0, Template.Format(cfg.loginCommand, ctx))];
    assert c.conns[0].pendingLogin && c.timers == [];
    Detector.YouAreRegisteredConfirms();
    c.Message(0, "You are registered!");
    assert c.registered && !c.conns[0].pendingRegister;
  }

  /** Registered already: no register command, one login timer for LOGIN_DELAY_MS. */
  method RegisteredRun(cfg: Config) {
    var c := new Controller(cfg, true, []);
    c.Spawn(0, true);
    assert c.timers == [LoginTimer(0, cfg.username, cfg.loginDelayMs)];
    assert c.log == [Created(0, cfg.username), Schedule(LoginTimer(0, cfg.username, cfg.loginDelayMs))];
    assert !c.conns[0].pendingRegister;
  }

  /** Every spawn sends the commands again. */
  method SpawnTwice(cfg: Config) {
    var c := new Controller(cfg, false, []);
    c.Spawn(0, true);
    c.Spawn(0, true);
    var login := LoginTimer(0, cfg.username, OrDefault(cfg.registerToLoginDelayMs, 2000));
    var reg := Chat(0, Template.Format(cfg.registerCommand, Template.Ctx(Some(cfg.username), cfg.password)));
    assert c.timers == [login, login];
    assert c.log == [Created(0, cfg.username), reg, Schedule(login), reg, Schedule(login)];
  }

  /**
   * A collision kick schedules both the backoff reconnect and the fallback;
   * once both fire, two connections are listening, and `bot` is the one
   * with the primary name.
   */
  method CollisionKick(cfg: Config, reason: Option<string>)
    requires cfg.username != "" && Collides(reason)
  {
    var c := new Controller(cfg, true, ["bot2", "bot3"]);
    c.Kicked(0, reason, 0.0, 0.0);
    assert c.altUsernames == ["bot3"];
    assert c.timers == [ReconnectTimer(ReconnectDelay(cfg, 1, 0.0)), FallbackTimer("bot2", 1000)];
    BothTimersFire(c, "bot2");
  }

  /** "Username already taken" is such a kick. */
  method UsernameAlreadyTakenKick(cfg: Config)
    requires cfg.username != ""
  {
    Detector.UsernameAlreadyTakenCollides();
    CollisionKick(cfg, Some("Username already taken"));
  }

  /** The fallback fires first, then the backoff reconnect: two live connections. */
  method BothTimersFire(c: Controller, next: string)
    requires c.Valid() && !c.shuttingDown && c.bot.None? && |c.conns| == 1
    requires next != "" && c.cfg.username != ""
    requires c.timers == [ReconnectTimer(ReconnectDelay(c.cfg, 1, 0.0)), FallbackTimer(next, 1000)]
    modifies c
    ensures c.Valid() && c.timers == [] && |c.conns| == 3
    ensures c.conns[1] == Conn(next, true, false, false)
    ensures c.conns[2] == Conn(c.cfg.username, true, false, false)
    ensures c.bot == Some(2)
  {
    c.FireFallback(1);
    assert c.conns[1] == Conn(next, true, false, false) && c.bot == Some(1);
    c.FireReconnect(0);
  }

  /**
   * Shutdown while a reconnect is pending: the timer fires and nothing is
   * created; a late `error` on the torn-down bot finds no listener and throws.
   */
  method ShutdownDuringBackoff(cfg: Config) {
    var c := new Controller(cfg, true, []);
    c.End(0, 0.5);
    assert c.timers == [ReconnectTimer(ReconnectDelay(cfg, 1, 0.5))];
    c.Shutdown();
    c.Shutdown();
    LateEvents(c);
  }

  /** After shutdown the pending reconnect creates nothing, and a late `error` throws. */
  method LateEvents(c: Controller)
    requires c.Valid() && c.shuttingDown && |c.conns| == 1 && !c.conns[0].listening
    requires |c.timers| == 1 && c.timers[0].ReconnectTimer?
    modifies c
    ensures c.Valid() && |c.conns| == 1 && c.bot.None? && c.timers == []
    ensures c.log != [] && c.log[|c.log| - 1] == Threw(0)
  {
    c.FireReconnect(0);
    c.Error(0, 0.5);
  }

  /** Three failures in a row count 1, 2, 3; the next spawn resets the count. */
  method ThreeErrors(cfg: Config, u1: real, u2: real, u3: real)
    requires 0.0 <= u1 < 1.0 && 0.0 <= u2 < 1.0 && 0.0 <= u3 < 1.0
  {
    var c := new Controller(cfg, true, []);
    c.Error(0, u1);
    assert c.reconnectAttempt == 1 && c.timers == [ReconnectTimer(ReconnectDelay(cfg, 1, u1))];
    FailAgain(c, 1, u2);
    FailAgain(c, 2, u3);
    assert c.timers == [ReconnectTimer(ReconnectDelay(cfg, 3, u3))];
    ReconnectAndSpawn(c);
    assert c.reconnectAttempt == 0 && c.connected == 1;
  }

  /** The pending reconnect fires and the new connection spawns. */
  method ReconnectAndSpawn(c: Controller)
    requires c.Valid() && !c.shuttingDown && |c.timers| == 1 && c.timers[0].ReconnectTimer?
    modifies c
    ensures c.Valid() && c.reconnectAttempt == 0 && c.connected == 1 && c.timers != []
  {
    var n := |c.conns|;
    c.FireReconnect(0);
    c.Spawn(n, true);
  }

  /** The pending reconnect fires and the new connection fails at once. */
  method FailAgain(c: Controller, n: nat, u: real)
    requires c.Valid() && !c.shuttingDown && 0.0 <= u < 1.0
    requires |c.conns| == n && c.reconnectAttempt == n && |c.timers| == 1 && c.timers[0].ReconnectTimer?
    modifies c
    ensures c.Valid() && !c.shuttingDown && |c.conns| == n + 1
    ensures c.reconnectAttempt == n + 1 && c.timers == [ReconnectTimer(ReconnectDelay(c.cfg, n + 1, u))]
  {
    c.FireReconnect(0);
    assert c.conns[n].listening;
    c.Error(n, u);
  }

  /** The AFK cycle: the first tick records, the next presses, the next releases the same action. */
  method AfkCycle(cfg: Config, pick: real)
    requires 0.0 <= pick < 1.0
  {
    var c := new Controller(cfg, true, []);
    c.Time(0, 100, 40.0, pick);
    assert c.lasttime == -1;
    c.Spawn(0, true);
    var a := PressThenRelease(c, pick);
    Drop(c);
    assert c.moving == 0 && c.lasttime == 300 && c.lastaction == Some(a);
  }

  /** The connection ends; the AFK state is left as it was for the next connection. */
  method Drop(c: Controller)
    requires c.Valid() && c.bot == Some(0)
    modifies c`connected, c`bot, c`conns, c`log, c`reconnectAttempt, c`timers
    ensures c.Valid() && c.bot.None? && c.connected == 0 && |c.conns| > 0 && !c.conns[0].listening
  {
    c.End(0, 0.0);
  }

  /** Ticks at 100, 200 and 300 on a live connection with a 40-tick interval. */
  method PressThenRelease(c: Controller, pick: real) returns (a: Action)
    requires c.Valid() && 0.0 <= pick < 1.0
    requires c.connected == 1 && c.bot == Some(0) && c.conns[0].listening
    requires c.lasttime == -1 && c.moving == 0
    modifies c`lasttime, c`moving, c`lastaction, c`log
    ensures c.Valid() && c.moving == 0 && c.lasttime == 300 && c.lastaction == Some(a)
    ensures a == Actions[Rand.ScaledFloor(pick, 4)]
    ensures c.log == old(c.log) + [Look(0), Control(0, a, true), Activate(0), Control(0, a, false)]
  {
    c.Time(0, 100, 40.0, pick);
    assert c.lasttime == 100 && c.moving == 0 && c.log == old(c.log);
    c.Time(0, 200, 40.0, pick);
    a := c.lastaction.value;
    assert c.moving == 1 && c.lasttime == 200;
    c.Time(0, 300, 40.0, pick);
  }
}
