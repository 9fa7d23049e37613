/** The objects of the application: the settings record of one script and
    the monitor thread that supervises it. Each method of ScriptMonitor
    changes the monitor's fields exactly as the matching function of module
    Supervisor changes a State; the properties proved there carry over. */
module Monitor {
  import opened Supervisor

  /** The settings dictionary of one script. The registry and the script's
      monitor share it by reference; the monitor writes back its restart
      counter. */
  class ScriptInfo {
    const name: string
    var path: string
    var monitor: ScriptMonitor?
    var status: Status
    var restarts: nat
    var maxRestarts: nat
    var telegram: Telegram

    /** The entry `add_script` creates: stopped, no restarts yet, a budget of
        five restarts and Telegram off with an empty token and chat id. */
    constructor (name: string, path: string)
      ensures this.name == name && this.path == path && monitor == null
      ensures status == Stopped && restarts == 0 && maxRestarts == 5
      ensures telegram == Telegram(false, "", "")
    {
      this.name := name;
      this.path := path;
      monitor := null;
      status := Stopped;
      restarts := 0;
      maxRestarts := 5;
      telegram := Telegram(false, "", "");
    }
  }

  /** One monitor thread. The settings it copies at construction are
      constants; `events` is everything it has emitted (log, status and stats
      signals, and attempted Telegram pushes), in order; `threadAlive` is the
      thread's liveness as the registry sees it through `is_alive()`. */
  class ScriptMonitor {
    const info: ScriptInfo
    const maxRestarts: nat
    const telegram: Telegram
    var restartCount: nat
    var process: Process
    var lastStats: StatsRecord
    var stopEvent: bool
    var events: seq<Event>
    var threadAlive: bool

    function Cfg(): Config
    {
      Config(maxRestarts, telegram)
    }

    /** The fields the supervision logic works on, as a Supervisor.State. */
    function Snapshot(): State
      reads this
    {
      State(restartCount, process, lastStats, stopEvent, events)
    }

    /** A monitor reads its budget and Telegram settings from the script's
        settings and carries over the restart counter stored there. */
    constructor (info: ScriptInfo)
      ensures this.info == info && Cfg() == Config(info.maxRestarts, info.telegram)
      ensures Snapshot() == Initial(info.restarts) && !threadAlive && Mirrored()
    {
      this.info := info;
      maxRestarts := info.maxRestarts;
      telegram := info.telegram;
      restartCount := info.restarts;
      process := NoProcess;
      lastStats := ZeroStats;
      stopEvent := false;
      events := [];
      threadAlive := false;
    }

    /** The counter in the script's settings is the monitor's own: only the
        monitor writes it, always together with its counter. */
    ghost predicate Mirrored()
      reads this, info
    {
      info.restarts == restartCount
    }

    /** `is_running` */
    predicate IsRunning()
      reads this
      ensures IsRunning() <==> process == Child(true)
    {
      process.IsAlive()
    }

    /** A signal emission. */
    method Emit(e: Event)
      modifies this`events
      ensures Snapshot() == Supervisor.Emit(old(Snapshot()), e)
    {
      events := events + [e];
    }

    /** `send_telegram_message`; the HTTP request is the `Pushed` event, and
        its failure is swallowed. */
    method SendTelegramMessage(msg: Message)
      modifies this`events
      ensures Snapshot() == Notify(Cfg(), old(Snapshot()), msg)
    {
      if !telegram.enabled || telegram.token == "" || telegram.chatId == "" {
        return;
      }
      Emit(Pushed(msg));
    }

    /** `start_script`; `spawnOk` says whether launching the child works. */
    method StartScript(spawnOk: bool) returns (ok: bool)
      modifies this`process, this`events
      ensures (Snapshot(), ok) == Supervisor.StartScript(Cfg(), old(Snapshot()), spawnOk)
    {
      if spawnOk {
        process := Child(true);
        Emit(LogLine(Started));
        SendTelegramMessage(Started);
        return true;
      }
      Emit(LogLine(StartError));
      SendTelegramMessage(StartError);
      return false;
    }

    /** `restart_script`, which also writes the new counter back into the
        script's settings. */
    method RestartScript(spawnOk: bool) returns (ok: bool)
      requires Mirrored()
      modifies this`process, this`events, this`restartCount, info`restarts
      ensures (Snapshot(), ok) == Supervisor.RestartScript(Cfg(), old(Snapshot()), spawnOk)
      ensures Mirrored()
    {
      if restartCount >= maxRestarts {
        Emit(LogLine(RestartLimit));
        SendTelegramMessage(RestartLimit);
        return false;
      }
      if process.Child? {
        // terminate, wait, and kill if need be: the child is gone afterwards
        process := Child(false);
      }
      restartCount := restartCount + 1;
      info.restarts := restartCount;
      ok := StartScript(spawnOk);
    }

    /** `send_stats`; `raised` reports an introspection error other than
        NoSuchProcess or AccessDenied, which escapes to `run`. */
    method SendStats(sample: Sample) returns (raised: bool)
      modifies this`lastStats, this`events
      ensures (Snapshot(), raised) == Supervisor.SendStats(old(Snapshot()), sample)
    {
      var stats := StatsRecord(0.0, 0.0, restartCount);
      if IsRunning() {
        match sample
        case Raises => return true;
        case Reading(cpu, memory) => stats := stats.(cpu := cpu, memory := memory);
        case CpuOnly(cpu) => stats := stats.(cpu := cpu);
        case Vanished =>
      }
      if stats != lastStats {
        lastStats := stats;
        Emit(StatsSent(stats));
      }
      return false;
    }

    /** `stop` */
    method Stop()
      modifies this`stopEvent, this`process, this`events
      ensures Snapshot() == Supervisor.Stop(Cfg(), old(Snapshot()))
    {
      stopEvent := true;
      ghost var flagged := Snapshot();
      if IsRunning() {
        // terminate, wait, and kill if need be
        process := Child(false);
      }
      ghost var halted := Snapshot();
      assert halted == if flagged.process.IsAlive() then Exited(flagged) else flagged;
      Emit(LogLine(StoppedMonitoring));
      SendTelegramMessage(StoppedMonitoring);
      assert Snapshot() == Announce(Cfg(), halted, StoppedMonitoring);
      Emit(StatusChanged(Stopped));
    }

    /** `Thread.start()`: the thread is alive until `run` returns. */
    method Start()
      modifies this`threadAlive
      ensures threadAlive
    {
      threadAlive := true;
    }

    /** The child exits on its own at this point when `exits` holds: the
        environment's doing, observed by the next `poll()`. */
    method ChildMayExit(exits: bool)
      modifies this`process
      ensures Snapshot() == if exits then Exited(old(Snapshot())) else old(Snapshot())
    {
      if exits && process.Child? {
        process := Child(false);
      }
    }

    /** `time.sleep(check_interval)`: meanwhile the child may exit on its own
        and the host may call `stop()`. */
    method Sleep(e: TickEnv)
      modifies this`process, this`stopEvent, this`events
      ensures Snapshot() == Supervisor.Sleep(Cfg(), old(Snapshot()), e)
    {
      ChildMayExit(e.crashes);
      if e.hostStops {
        Stop();
      }
    }

    /** The liveness check of one pass, after the stats were sent: restart a
        dead child unless stopping, leave on a refused or failed restart, and
        report a child that is still alive at the end as "running". */
    method CheckLiveness(spawnOk: bool, exitsBeforeReport: bool) returns (go: bool)
      requires Mirrored()
      modifies this`restartCount, this`process, this`events, info`restarts
      ensures (Snapshot(), go) == Supervise(Cfg(), old(Snapshot()), spawnOk, exitsBeforeReport)
      ensures Mirrored()
    {
      ghost var sent := Snapshot();
      if !IsRunning() && !stopEvent {
        Emit(LogLine(Crashed));
        SendTelegramMessage(Crashed);
        ghost var crashed := Snapshot();
        assert crashed == Announce(Cfg(), sent, Crashed);
        var restarted := RestartScript(spawnOk);
        if !restarted {
          Emit(StatusChanged(Error));
          return false;
        }
      }
      ChildMayExit(exitsBeforeReport);
      ghost var checked := Snapshot();
      if IsRunning() {
        Emit(StatusChanged(Running));
      }
      assert Snapshot() == ReportRunning(checked);
      return true;
    }

    /** One pass of the `while` loop of `run`, from its sleep to the
        "running" report; `go` is false when the pass leaves the loop, by
        `break` or by an exception. The child may exit during the sleep,
        after its stats are read, and after the liveness check. */
    method Iteration(e: TickEnv) returns (go: bool)
      requires !stopEvent && Mirrored()
      modifies this`restartCount, this`process, this`lastStats, this`stopEvent
      modifies this`events, info`restarts
      ensures (Snapshot(), go) == Tick(Cfg(), old(Snapshot()), e)
      ensures Mirrored()
    {
      ghost var before := Snapshot();
      Sleep(e);
      var raised := SendStats(e.sample);
      ghost var sent := Snapshot();
      if raised {
        Emit(LogLine(MonitoringError));
        SendTelegramMessage(MonitoringError);
        assert Snapshot() == Announce(Cfg(), sent, MonitoringError);
        return false;
      }
      ChildMayExit(e.exitsAfterStats);
      go := CheckLiveness(e.spawnOk, e.exitsBeforeReport);
    }

    /** The `while not stop_event.is_set()` loop of `run`, including the
        handler that reports an exception escaping from it. `env` supplies
        one TickEnv per iteration; once it runs out, the host stops the
        monitor during the next sleep. */
    method Watch(env: seq<TickEnv>)
      modifies this`restartCount, this`process, this`lastStats, this`stopEvent
      requires Mirrored()
      modifies this`events, info`restarts
      ensures Snapshot() == Loop(Cfg(), old(Snapshot()), env)
      ensures Mirrored()
    {
      ghost var final := Loop(Cfg(), Snapshot(), env);
      var i := 0;
      assert env[i..] == env;
      while !stopEvent
        invariant 0 <= i <= |env|
        invariant Loop(Cfg(), Snapshot(), env[i..]) == final
        invariant Mirrored()
        decreases |env| - i, if stopEvent then 0 else 1
      {
        ghost var before := Snapshot();
        var e := if i < |env| then env[i] else Closing;
        var go := Iteration(e);
        LoopAdvance(Cfg(), before, env, i, Snapshot(), go);
        if !go {
          break;
        }
        if i < |env| {
          i := i + 1;
        }
      }
    }

    /** `run`, the body of the thread: announce, start the child, and either
        report the failed start or watch it until the loop ends, then
        `stop()`. `spawnOk` decides the first launch. */
    method Run(spawnOk: bool, env: seq<TickEnv>)
      modifies this`restartCount, this`process, this`lastStats, this`stopEvent
      requires Mirrored()
      modifies this`events, this`threadAlive, info`restarts
      ensures Snapshot() == Supervisor.Run(Cfg(), old(Snapshot()), spawnOk, env)
      ensures !threadAlive && Mirrored()
    {
      ghost var s0 := Snapshot();
      Emit(LogLine(StartingMonitoring));
      Emit(StatusChanged(Running));
      assert Snapshot() == Supervisor.Emit(Supervisor.Emit(s0, LogLine(StartingMonitoring)), StatusChanged(Running));
      var started := StartScript(spawnOk);
      if !started {
        Emit(StatusChanged(Error));
        threadAlive := false;
        return;
      }
      Watch(env);
      Stop();
      threadAlive := false;
    }
  }
}
