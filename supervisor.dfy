/** The supervision logic of one monitored script, as pure functions over an
    explicit state. Processes, psutil readings, the Telegram endpoint, threads
    and time are replaced by values that the environment supplies. The class
    Monitor.ScriptMonitor is proved to follow these functions step by step. */
module Supervisor {

  /** Status strings carried by status signals and kept in the registry. */
  datatype Status = Starting | Running | Error | Stopped

  /** The log lines (and notification texts) a monitor produces; their
      wording is not modelled, only which one is sent. */
  datatype Message =
    | StartingMonitoring
    | Started
    | StartError
    | Crashed
    | RestartLimit
    | MonitoringError
    | StoppedMonitoring

  /** The `{cpu, memory, restarts}` record sent on the stats signal. */
  datatype StatsRecord = StatsRecord(cpu: real, memory: real, restarts: nat)

  /** The value `last_stats` starts with. */
  const ZeroStats := StatsRecord(0.0, 0.0, 0)

  /** What process introspection yields when the process is alive. */
  datatype Sample =
    | Reading(cpu: real, memory: real)
    | CpuOnly(cpu: real)  // NoSuchProcess or AccessDenied once cpu was read
    | Vanished  // NoSuchProcess or AccessDenied before anything was read
    | Raises    // any other exception: escapes send_stats and ends run

  /** A signal emitted by the monitor, or a notification push it attempted. */
  datatype Event =
    | LogLine(msg: Message)
    | StatusChanged(status: Status)
    | StatsSent(stats: StatsRecord)
    | Pushed(text: Message)

  /** The monitor's `process` attribute: None before the first launch, then the
      last child that was launched successfully. */
  datatype Process = NoProcess | Child(alive: bool) {
    /** `is_running`: a process exists and `poll()` reports no exit code. */
    predicate IsAlive()
      ensures NoProcess? ==> !IsAlive()
      ensures Child? ==> (IsAlive() <==> alive)
    {
      Child? && alive
    }
  }

  /** Telegram settings of one script. */
  datatype Telegram = Telegram(enabled: bool, token: string, chatId: string) {
    /** The guard of `send_telegram_message`: a push is attempted only when
        notifications are enabled and both token and chat id are non-empty. */
    predicate ShouldPush()
      ensures !enabled || token == "" || chatId == "" ==> !ShouldPush()
      ensures enabled && |token| > 0 && |chatId| > 0 ==> ShouldPush()
    {
      enabled && token != "" && chatId != ""
    }
  }

  datatype Config = Config(maxRestarts: nat, telegram: Telegram)

  /** Everything `run` reads and writes. `stopRequested` is the stop event. */
  datatype State = State(
    restartCount: nat,
    process: Process,
    lastStats: StatsRecord,
    stopRequested: bool,
    events: seq<Event>)

  /** What the world does during one iteration of the loop, in order: whether
      the child exits during the sleep, whether the host calls `stop()`
      during the sleep, what introspection returns, whether the child exits
      between the stats and the liveness check, whether a relaunch succeeds,
      and whether the child exits before the final "running" check. */
  datatype TickEnv = TickEnv(
    crashes: bool,
    hostStops: bool,
    sample: Sample,
    exitsAfterStats: bool,
    spawnOk: bool,
    exitsBeforeReport: bool)

  /** The tick the host's final `stop()` produces once the environment has
      nothing more to say (the application closes). */
  const Closing := TickEnv(false, true, Vanished, false, false, false)

  /** A tick in which the child has died and relaunching it works. */
  const CrashTick := TickEnv(true, false, Vanished, false, true, false)

  // ---------------------------------------------------------------------
  // Views of the event log

  /** The stats records among the events, in emission order. */
  function StatsOf(evs: seq<Event>): seq<StatsRecord>
  {
    if evs == [] then []
    else
      var last := evs[|evs| - 1];
      StatsOf(evs[..|evs| - 1]) + (if last.StatsSent? then [last.stats] else [])
  }

  lemma StatsOfAppend(evs: seq<Event>, e: Event)
    ensures StatsOf(evs + [e]) == StatsOf(evs) + (if e.StatsSent? then [e.stats] else [])
  {
    assert (evs + [e])[..|evs|] == evs;
  }

  ghost predicate NoRepeats(s: seq<StatsRecord>)
  {
    forall i :: 0 < i < |s| ==> s[i - 1] != s[i]
  }

  /** Change suppression, as consumers see it: no stats record is delivered
      twice in a row, and the last one delivered is `last_stats`. */
  ghost predicate StatsCoherent(st: State)
  {
    var s := StatsOf(st.events);
    NoRepeats(s) && (s != [] ==> s[|s| - 1] == st.lastStats)
  }

  ghost predicate NoPushes(evs: seq<Event>)
  {
    forall i :: 0 <= i < |evs| ==> !evs[i].Pushed?
  }

  /** What every step keeps: stats suppression, and no push at all unless
      Telegram is configured. */
  ghost predicate Inv(cfg: Config, st: State)
  {
    StatsCoherent(st) && (!cfg.telegram.ShouldPush() ==> NoPushes(st.events))
  }

  /** `r` differs from `st` in its events only. */
  ghost predicate Quiet(st: State, r: State)
  {
    && r.restartCount == st.restartCount
    && r.process == st.process
    && r.lastStats == st.lastStats
    && r.stopRequested == st.stopRequested
  }

  // ---------------------------------------------------------------------
  // Single steps

  /** A signal emission: appends one event. */
  function Emit(st: State, e: Event): State
  {
    st.(events := st.events + [e])
  }

  /** `send_telegram_message`: a push is attempted exactly when the guard
      holds; a failing push is swallowed, so nothing else changes. */
  function Notify(cfg: Config, st: State, msg: Message): (r: State)
    ensures Quiet(st, r)
    ensures r.events == st.events + (if cfg.telegram.ShouldPush() then [Pushed(msg)] else [])
  {
    if cfg.telegram.ShouldPush() then Emit(st, Pushed(msg)) else st
  }

  /** The log-then-notify pair that every lifecycle message goes through. */
  function Announce(cfg: Config, st: State, msg: Message): (r: State)
    ensures Quiet(st, r)
    ensures |r.events| > |st.events| && r.events[|st.events|] == LogLine(msg)
    ensures r.events == st.events + [LogLine(msg)]
                        + (if cfg.telegram.ShouldPush() then [Pushed(msg)] else [])
  {
    Notify(cfg, Emit(st, LogLine(msg)), msg)
  }

  /** The child is gone: it exited on its own, or it was terminated (and
      killed if it ignored the request). */
  function Exited(st: State): (r: State)
    ensures !r.process.IsAlive() && (r.process.NoProcess? <==> st.process.NoProcess?)
    ensures r.restartCount == st.restartCount && r.lastStats == st.lastStats
    ensures r.stopRequested == st.stopRequested && r.events == st.events
  {
    if st.process.Child? then st.(process := Child(false)) else st
  }

  /** `start_script`: launch the child; on success it is alive and "Started"
      is announced, on failure the old process value stays and the start
      error is announced. */
  function StartScript(cfg: Config, st: State, spawnOk: bool): (r: (State, bool))
    ensures r.1 == spawnOk
    ensures r.0.process == if spawnOk then Child(true) else st.process
    ensures r.0.restartCount == st.restartCount && r.0.lastStats == st.lastStats
    ensures r.0.stopRequested == st.stopRequested
    ensures |r.0.events| > |st.events|
    ensures r.0.events[|st.events|] == LogLine(if spawnOk then Started else StartError)
  {
    if spawnOk then (Announce(cfg, st.(process := Child(true)), Started), true)
    else (Announce(cfg, st, StartError), false)
  }

  /** `restart_script`: the bounded-retry rule. With the budget used up it
      refuses, announcing the limit and launching nothing. Otherwise it
      terminates any old child, counts the restart (before, and whether or
      not, the launch succeeds) and launches again. */
  function RestartScript(cfg: Config, st: State, spawnOk: bool): (r: (State, bool))
    ensures st.restartCount >= cfg.maxRestarts ==>
              && !r.1 && Quiet(st, r.0) && |r.0.events| > |st.events|
              && r.0.events[|st.events|] == LogLine(RestartLimit)
    ensures st.restartCount < cfg.maxRestarts ==>
              && r.0.restartCount == st.restartCount + 1 && r.1 == spawnOk
              && r.0.process == (if spawnOk then Child(true) else Exited(st).process)
              && |r.0.events| > |st.events|
              && r.0.events[|st.events|] == LogLine(if spawnOk then Started else StartError)
    ensures r.0.lastStats == st.lastStats && r.0.stopRequested == st.stopRequested
  {
    if st.restartCount >= cfg.maxRestarts then (Announce(cfg, st, RestartLimit), false)
    else StartScript(cfg, Exited(st).(restartCount := st.restartCount + 1), spawnOk)
  }

  /** The record `send_stats` builds: the values read from a live process,
      zero for each value not read, and always the current restart count. */
  function Record(running: bool, sample: Sample, restarts: nat): (r: StatsRecord)
    ensures r.restarts == restarts
    ensures !running || sample.Vanished? ==> r.cpu == 0.0 && r.memory == 0.0
    ensures running && sample.CpuOnly? ==> r.cpu == sample.cpu && r.memory == 0.0
    ensures running && sample.Reading? ==> r.cpu == sample.cpu && r.memory == sample.memory
  {
    if running && sample.Reading? then StatsRecord(sample.cpu, sample.memory, restarts)
    else if running && sample.CpuOnly? then StatsRecord(sample.cpu, 0.0, restarts)
    else StatsRecord(0.0, 0.0, restarts)
  }

  /** `send_stats`. The second component says the introspection raised an
      exception that escapes to `run`; then nothing is emitted or stored.
      Otherwise the record is emitted iff it differs from `last_stats`, and
      afterwards `last_stats` is the record. */
  function SendStats(st: State, sample: Sample): (r: (State, bool))
    ensures r.1 <==> st.process.IsAlive() && sample.Raises?
    ensures r.1 ==> r.0 == st
    ensures !r.1 ==>
              var rec := Record(st.process.IsAlive(), sample, st.restartCount);
              && r.0.lastStats == rec
              && r.0.events == st.events + (if rec != st.lastStats then [StatsSent(rec)] else [])
    ensures r.0.restartCount == st.restartCount && r.0.process == st.process
    ensures r.0.stopRequested == st.stopRequested
  {
    if st.process.IsAlive() && sample.Raises? then (st, true)
    else
      var rec := Record(st.process.IsAlive(), sample, st.restartCount);
      if rec != st.lastStats then (Emit(st, StatsSent(rec)).(lastStats := rec), false)
      else (st, false)
  }

  /** `stop`: raise the stop flag, terminate a live child, announce, and
      emit the "stopped" status as the very last event. */
  function Stop(cfg: Config, st: State): (r: State)
    ensures r.stopRequested && !r.process.IsAlive()
    ensures |r.events| > 0 && r.events[|r.events| - 1] == StatusChanged(Stopped)
    ensures r.restartCount == st.restartCount && r.lastStats == st.lastStats
  {
    var flagged := st.(stopRequested := true);
    var halted := if flagged.process.IsAlive() then Exited(flagged) else flagged;
    Emit(Announce(cfg, halted, StoppedMonitoring), StatusChanged(Stopped))
  }

  /** The "running" status the loop emits at the end of a tick whenever the
      child is alive. */
  function ReportRunning(st: State): (r: State)
    ensures Quiet(st, r)
    ensures r.events == st.events + (if st.process.IsAlive() then [StatusChanged(Running)] else [])
  {
    if st.process.IsAlive() then Emit(st, StatusChanged(Running)) else st
  }

  /** The loop ended because of a failure: the last event is the "error"
      status of a refused or failed restart, or the report of an exception. */
  ghost predicate EndsInFailure(st: State)
  {
    |st.events| > 0 &&
    st.events[|st.events| - 1] in
      {StatusChanged(Error), LogLine(MonitoringError), Pushed(MonitoringError)}
  }

  /** What happens during the sleep of a tick: the child may exit on its own
      and the host may call `stop()`. */
  function Sleep(cfg: Config, st: State, e: TickEnv): (r: State)
    ensures r.restartCount == st.restartCount && r.lastStats == st.lastStats
    ensures e.hostStops ==> r.stopRequested && !r.process.IsAlive()
    ensures !e.hostStops ==> r.stopRequested == st.stopRequested
  {
    var exited := if e.crashes then Exited(st) else st;
    if e.hostStops then Stop(cfg, exited) else exited
  }

  /** The liveness check of a tick, after the stats were sent: a dead child
      of a monitor that is not stopping is announced and restarted; a refused
      or failed restart emits "error" and leaves the loop. Then a child that
      is alive (it may exit first, when `exitsBeforeReport`) is reported as
      "running". */
  function Supervise(cfg: Config, st: State, spawnOk: bool, exitsBeforeReport: bool): (r: (State, bool))
    ensures st.restartCount <= r.0.restartCount <= st.restartCount + 1
    ensures st.restartCount <= cfg.maxRestarts ==> r.0.restartCount <= cfg.maxRestarts
    ensures st.stopRequested ==> r.1 && r.0.restartCount == st.restartCount
    ensures !st.process.IsAlive() && !st.stopRequested ==>
              (r.1 <==> st.restartCount < cfg.maxRestarts && spawnOk)
    ensures st.process.IsAlive() ==> r.1 && r.0.restartCount == st.restartCount
    ensures r.0.stopRequested == st.stopRequested
    ensures !r.1 ==> |r.0.events| > 0 && r.0.events[|r.0.events| - 1] == StatusChanged(Error)
    ensures r.1 && r.0.process.IsAlive() ==>
              |r.0.events| > 0 && r.0.events[|r.0.events| - 1] == StatusChanged(Running)
    ensures r.0.lastStats == st.lastStats
  {
    if !st.process.IsAlive() && !st.stopRequested then
      var restarted := RestartScript(cfg, Announce(cfg, st, Crashed), spawnOk);
      if !restarted.1 then (Emit(restarted.0, StatusChanged(Error)), false)
      else (ReportRunning(if exitsBeforeReport then Exited(restarted.0) else restarted.0), true)
    else (ReportRunning(if exitsBeforeReport then Exited(st) else st), true)
  }

  /** One iteration of the `while` loop of `run`, after its sleep. The second
      component says whether the loop goes on (false on `break` or on an
      exception). */
  function Tick(cfg: Config, st: State, e: TickEnv): (r: (State, bool))
    ensures st.restartCount <= r.0.restartCount <= st.restartCount + 1
    ensures st.restartCount <= cfg.maxRestarts ==> r.0.restartCount <= cfg.maxRestarts
    ensures e.hostStops ==> r.0.stopRequested && r.1
    ensures !r.1 ==> EndsInFailure(r.0)
  {
    var slept := Sleep(cfg, st, e);
    var sent := SendStats(slept, e.sample);
    if sent.1 then (Announce(cfg, sent.0, MonitoringError), false)
    else Supervise(cfg, if e.exitsAfterStats then Exited(sent.0) else sent.0, e.spawnOk, e.exitsBeforeReport)
  }

  /** The `while not stop_event.is_set()` loop of `run`, fed one environment
      tick per iteration; when the environment is exhausted the host stops
      the monitor. The loop ends on the stop flag or on a failure; the
      restart counter only grows and stays within its budget. */
  function Loop(cfg: Config, st: State, env: seq<TickEnv>): (r: State)
    decreases |env|
    ensures st.restartCount <= r.restartCount
    ensures st.restartCount <= cfg.maxRestarts ==> r.restartCount <= cfg.maxRestarts
    ensures r.stopRequested || EndsInFailure(r)
  {
    if st.stopRequested then st
    else
      var next := Tick(cfg, st, if env == [] then Closing else env[0]);
      if !next.1 || env == [] then next.0 else Loop(cfg, next.0, env[1..])
  }

  /** One iteration of the loop in terms of Loop: when tick `i` (or the
      Closing tick, past the end of the environment) takes `st` to `r`, the
      loop from `st` ends where the loop from `r` on the rest ends, or at `r`
      itself when the iteration left the loop or the environment is done. */
  lemma LoopAdvance(cfg: Config, st: State, env: seq<TickEnv>, i: nat, r: State, go: bool)
    requires !st.stopRequested && i <= |env|
    requires (r, go) == Tick(cfg, st, if i < |env| then env[i] else Closing)
    ensures go && i < |env| ==> Loop(cfg, r, env[i + 1..]) == Loop(cfg, st, env[i..])
    ensures go && i == |env| ==> r.stopRequested && r == Loop(cfg, st, env[i..])
    ensures !go ==> r == Loop(cfg, st, env[i..])
  {
    if i < |env| {
      assert env[i..][0] == env[i];
      assert env[i..][1..] == env[i + 1..];
    }
  }

  /** `run`: announce, start the child, and either report the failed start
      and return, or run the loop and finish with `stop()`. */
  function Run(cfg: Config, st: State, spawnOk: bool, env: seq<TickEnv>): (r: State)
    ensures !spawnOk ==>
              && r.restartCount == st.restartCount && r.process == st.process
              && r.stopRequested == st.stopRequested
              && |r.events| > 0 && r.events[|r.events| - 1] == StatusChanged(Error)
    ensures spawnOk ==>
              && r.stopRequested && !r.process.IsAlive()
              && |r.events| > 0 && r.events[|r.events| - 1] == StatusChanged(Stopped)
    ensures st.restartCount <= r.restartCount
    ensures st.restartCount <= cfg.maxRestarts ==> r.restartCount <= cfg.maxRestarts
  {
    var announced := Emit(Emit(st, LogLine(StartingMonitoring)), StatusChanged(Running));
    var started := StartScript(cfg, announced, spawnOk);
    if !started.1 then Emit(started.0, StatusChanged(Error))
    else Stop(cfg, Loop(cfg, started.0, env))
  }

  /** The state of a freshly constructed monitor: the counter carried over
      from the script's settings, no process, zero stats, no events. */
  function Initial(restarts: nat): (r: State)
    ensures StatsCoherent(r) && NoPushes(r.events) && r.restartCount == restarts
  {
    State(restarts, NoProcess, ZeroStats, false, [])
  }

  // ---------------------------------------------------------------------
  // Properties across steps

  /** A run whose first launch fails reports "error" right after the start
      error and never enters the loop: no stats, no restart, no "stopped". */
  lemma FailedStartNeverLoops(cfg: Config, st: State, env: seq<TickEnv>)
    ensures Run(cfg, st, false, env).events
              == st.events
                 + [LogLine(StartingMonitoring), StatusChanged(Running), LogLine(StartError)]
                 + (if cfg.telegram.ShouldPush() then [Pushed(StartError)] else [])
                 + [StatusChanged(Error)]
  {
    var announced := Emit(Emit(st, LogLine(StartingMonitoring)), StatusChanged(Running));
    assert announced.events == st.events + [LogLine(StartingMonitoring), StatusChanged(Running)];
  }

  /** One tick in which the child has died and a relaunch would work: below
      the budget the counter grows by one and the loop goes on; at the budget
      the restart is refused and the tick ends on the "error" status. */
  lemma CrashTickOutcome(cfg: Config, st: State)
    requires !st.stopRequested
    ensures var r := Tick(cfg, st, CrashTick);
            && !r.0.stopRequested
            && (st.restartCount < cfg.maxRestarts ==> r.1 && r.0.restartCount == st.restartCount + 1)
            && (st.restartCount >= cfg.maxRestarts ==>
                  && !r.1 && r.0.restartCount == st.restartCount
                  && |r.0.events| > 0 && r.0.events[|r.0.events| - 1] == StatusChanged(Error))
  {
  }

  /** A tick that goes on with a live child ends on the "running" status. */
  lemma TickReportsRunning(cfg: Config, st: State, e: TickEnv)
    ensures var r := Tick(cfg, st, e);
            r.1 && r.0.process.IsAlive() ==>
              |r.0.events| > 0 && r.0.events[|r.0.events| - 1] == StatusChanged(Running)
  {
    var slept := Sleep(cfg, st, e);
    var sent := SendStats(slept, e.sample);
    if !sent.1 {
      var checked := if e.exitsAfterStats then Exited(sent.0) else sent.0;
      assert Tick(cfg, st, e) == Supervise(cfg, checked, e.spawnOk, e.exitsBeforeReport);
    }
  }

  /** A tick whose child is dead at the liveness check of a monitor that is
      not stopping (it was dead already, died during the sleep, or died after
      its stats were read) goes on exactly when the restart is within the
      budget and the relaunch works; otherwise it leaves the loop on "error". */
  lemma DeadChildOutcome(cfg: Config, st: State, e: TickEnv)
    requires !st.stopRequested && !e.hostStops
    requires !st.process.IsAlive() || e.crashes || e.exitsAfterStats
    requires e.sample.Raises? ==> !st.process.IsAlive() || e.crashes
    ensures var r := Tick(cfg, st, e);
            && (r.1 <==> st.restartCount < cfg.maxRestarts && e.spawnOk)
            && (!r.1 ==> r.0.events[|r.0.events| - 1] == StatusChanged(Error))
  {
    var slept := Sleep(cfg, st, e);
    var sent := SendStats(slept, e.sample);
    var checked := if e.exitsAfterStats then Exited(sent.0) else sent.0;
    assert !checked.process.IsAlive() && checked.restartCount == st.restartCount;
  }

  /** Crash after crash with every relaunch working: the counter climbs by one
      per crash until the budget is used up; the next crash is refused and the
      loop ends on the "error" status, otherwise the host stops it. */
  lemma {:induction false} CrashBudget(cfg: Config, st: State, env: seq<TickEnv>)
    requires !st.stopRequested && st.restartCount <= cfg.maxRestarts
    requires forall i :: 0 <= i < |env| ==> env[i] == CrashTick
    ensures var r := Loop(cfg, st, env);
            && r.restartCount == (if st.restartCount + |env| <= cfg.maxRestarts
                                  then st.restartCount + |env| else cfg.maxRestarts)
            && (st.restartCount + |env| > cfg.maxRestarts ==>
                  && !r.stopRequested
                  && |r.events| > 0 && r.events[|r.events| - 1] == StatusChanged(Error))
            && (st.restartCount + |env| <= cfg.maxRestarts ==> r.stopRequested)
    decreases |env|
  {
    if env != [] {
      CrashTickOutcome(cfg, st);
      var next := Tick(cfg, st, CrashTick);
      if st.restartCount < cfg.maxRestarts {
        CrashBudget(cfg, next.0, env[1..]);
      }
    }
  }

  /** Scenario: at most two restarts, three crashes in a row. The counter
      reaches 2, the third crash is refused with the "error" status, and the
      run still ends with "stopped". */
  lemma ThreeCrashesWithBudgetTwo(tg: Telegram, st: State)
    requires st.restartCount == 0 && !st.stopRequested
    ensures var r := Run(Config(2, tg), st, true, [CrashTick, CrashTick, CrashTick]);
            && r.restartCount == 2
            && StatusChanged(Error) in r.events
            && r.events[|r.events| - 1] == StatusChanged(Stopped)
  {
    var cfg := Config(2, tg);
    var env := [CrashTick, CrashTick, CrashTick];
    var announced := Emit(Emit(st, LogLine(StartingMonitoring)), StatusChanged(Running));
    var started := StartScript(cfg, announced, true);
    CrashBudget(cfg, started.0, env);
    var looped := Loop(cfg, started.0, env);
    assert StatusChanged(Error) in looped.events;
    StopKeepsEvents(cfg, looped);
  }

  /** A host `stop()` during the loop and the `stop()` of the `finally`
      clause each report "stopped": a fresh monitor, Telegram off, stopped
      by the host during its first sleep, emits "stopped" twice. */
  lemma HostStopReportsStoppedTwice()
    ensures Run(Config(5, Telegram(false, "", "")), Initial(0), true, []).events
              == [LogLine(StartingMonitoring), StatusChanged(Running), LogLine(Started),
                  LogLine(StoppedMonitoring), StatusChanged(Stopped),
                  LogLine(StoppedMonitoring), StatusChanged(Stopped)]
  {
  }

  /** `start_script`'s log: the launch outcome's log line, then its push
      when Telegram is configured; earlier events are kept. */
  lemma StartScriptEvents(cfg: Config, st: State, spawnOk: bool)
    ensures var m := if spawnOk then Started else StartError;
            StartScript(cfg, st, spawnOk).0.events
              == st.events + [LogLine(m)] + (if cfg.telegram.ShouldPush() then [Pushed(m)] else [])
  {
  }

  /** `restart_script`'s log: the restart-limit line at the budget, the
      launch outcome's line below it, each followed by its push when
      Telegram is configured; earlier events are kept. */
  lemma RestartScriptEvents(cfg: Config, st: State, spawnOk: bool)
    ensures var m := if st.restartCount >= cfg.maxRestarts then RestartLimit
                     else if spawnOk then Started else StartError;
            RestartScript(cfg, st, spawnOk).0.events
              == st.events + [LogLine(m)] + (if cfg.telegram.ShouldPush() then [Pushed(m)] else [])
  {
    if st.restartCount < cfg.maxRestarts {
      StartScriptEvents(cfg, Exited(st).(restartCount := st.restartCount + 1), spawnOk);
    }
  }

  /** `stop`'s log: "Stopped monitoring", its push when Telegram is
      configured, then the "stopped" status; earlier events are kept. */
  lemma StopEvents(cfg: Config, st: State)
    ensures Stop(cfg, st).events
              == st.events + [LogLine(StoppedMonitoring)]
                 + (if cfg.telegram.ShouldPush() then [Pushed(StoppedMonitoring)] else [])
                 + [StatusChanged(Stopped)]
  {
  }

  /** `stop` only appends to the event log: the old log is a prefix of the
      new one. */
  lemma StopKeepsEvents(cfg: Config, st: State)
    ensures |Stop(cfg, st).events| > |st.events|
    ensures Stop(cfg, st).events[..|st.events|] == st.events
  {
    StopEvents(cfg, st);
  }

  /** Calling `send_stats` twice with the same reading emits at most once:
      the second call finds its record already stored. */
  lemma SendStatsIdempotent(st: State, sample: Sample)
    ensures var once := SendStats(st, sample).0;
            SendStats(once, sample) == (once, st.process.IsAlive() && sample.Raises?)
  {
  }

  // ---------------------------------------------------------------------
  // The invariant Inv, step by step

  lemma NoPushesAppend(evs: seq<Event>, e: Event)
    requires NoPushes(evs) && !e.Pushed?
    ensures NoPushes(evs + [e])
  {
    forall i | 0 <= i < |evs| + 1 ensures !(evs + [e])[i].Pushed? {
      if i < |evs| { assert (evs + [e])[i] == evs[i]; }
    }
  }

  lemma NoRepeatsAppend(s: seq<StatsRecord>, x: StatsRecord)
    requires NoRepeats(s) && (s != [] ==> s[|s| - 1] != x)
    ensures NoRepeats(s + [x])
  {
    forall i | 0 < i < |s| + 1 ensures (s + [x])[i - 1] != (s + [x])[i] {
      if i < |s| { assert (s + [x])[i] == s[i]; }
    }
  }

  lemma EmitKeepsInv(cfg: Config, st: State, e: Event)
    requires Inv(cfg, st) && !e.StatsSent? && (e.Pushed? ==> cfg.telegram.ShouldPush())
    ensures Inv(cfg, Emit(st, e))
  {
    StatsOfAppend(st.events, e);
    if !cfg.telegram.ShouldPush() {
      NoPushesAppend(st.events, e);
    }
  }

  lemma AnnounceKeepsInv(cfg: Config, st: State, msg: Message)
    requires Inv(cfg, st)
    ensures Inv(cfg, Announce(cfg, st, msg))
  {
    EmitKeepsInv(cfg, st, LogLine(msg));
    if cfg.telegram.ShouldPush() {
      EmitKeepsInv(cfg, Emit(st, LogLine(msg)), Pushed(msg));
    }
  }

  lemma StartScriptKeepsInv(cfg: Config, st: State, spawnOk: bool)
    requires Inv(cfg, st)
    ensures Inv(cfg, StartScript(cfg, st, spawnOk).0)
  {
    if spawnOk {
      AnnounceKeepsInv(cfg, st.(process := Child(true)), Started);
    } else {
      AnnounceKeepsInv(cfg, st, StartError);
    }
  }

  lemma RestartScriptKeepsInv(cfg: Config, st: State, spawnOk: bool)
    requires Inv(cfg, st)
    ensures Inv(cfg, RestartScript(cfg, st, spawnOk).0)
  {
    if st.restartCount >= cfg.maxRestarts {
      AnnounceKeepsInv(cfg, st, RestartLimit);
    } else {
      var counted := Exited(st).(restartCount := st.restartCount + 1);
      assert counted.events == st.events && counted.lastStats == st.lastStats;
      assert Inv(cfg, counted);
      StartScriptKeepsInv(cfg, counted, spawnOk);
      assert RestartScript(cfg, st, spawnOk) == StartScript(cfg, counted, spawnOk);
    }
  }

  /** The heart of change suppression: a record is emitted only when it
      differs from `last_stats`, which is the last record emitted. */
  lemma SendStatsKeepsInv(cfg: Config, st: State, sample: Sample)
    requires Inv(cfg, st)
    ensures Inv(cfg, SendStats(st, sample).0)
  {
    var r := SendStats(st, sample);
    var rec := Record(st.process.IsAlive(), sample, st.restartCount);
    if !r.1 && rec != st.lastStats {
      assert r.0.events == st.events + [StatsSent(rec)] && r.0.lastStats == rec;
      StatsOfAppend(st.events, StatsSent(rec));
      NoRepeatsAppend(StatsOf(st.events), rec);
      if !cfg.telegram.ShouldPush() {
        NoPushesAppend(st.events, StatsSent(rec));
      }
    }
  }

  lemma StopKeepsInv(cfg: Config, st: State)
    requires Inv(cfg, st)
    ensures Inv(cfg, Stop(cfg, st))
  {
    var flagged := st.(stopRequested := true);
    var halted := if flagged.process.IsAlive() then Exited(flagged) else flagged;
    AnnounceKeepsInv(cfg, halted, StoppedMonitoring);
    EmitKeepsInv(cfg, Announce(cfg, halted, StoppedMonitoring), StatusChanged(Stopped));
  }

  lemma ReportRunningKeepsInv(cfg: Config, st: State)
    requires Inv(cfg, st)
    ensures Inv(cfg, ReportRunning(st))
  {
    if st.process.IsAlive() {
      EmitKeepsInv(cfg, st, StatusChanged(Running));
    }
  }

  lemma SuperviseKeepsInv(cfg: Config, st: State, spawnOk: bool, exitsBeforeReport: bool)
    requires Inv(cfg, st)
    ensures Inv(cfg, Supervise(cfg, st, spawnOk, exitsBeforeReport).0)
  {
    if !st.process.IsAlive() && !st.stopRequested {
      AnnounceKeepsInv(cfg, st, Crashed);
      var announced := Announce(cfg, st, Crashed);
      RestartScriptKeepsInv(cfg, announced, spawnOk);
      var restarted := RestartScript(cfg, announced, spawnOk);
      if !restarted.1 {
        EmitKeepsInv(cfg, restarted.0, StatusChanged(Error));
      } else {
        ReportRunningKeepsInv(cfg, if exitsBeforeReport then Exited(restarted.0) else restarted.0);
      }
    } else {
      ReportRunningKeepsInv(cfg, if exitsBeforeReport then Exited(st) else st);
    }
  }

  lemma TickKeepsInv(cfg: Config, st: State, e: TickEnv)
    requires Inv(cfg, st)
    ensures Inv(cfg, Tick(cfg, st, e).0)
  {
    var exited := if e.crashes then Exited(st) else st;
    if e.hostStops {
      StopKeepsInv(cfg, exited);
    }
    var slept := Sleep(cfg, st, e);
    SendStatsKeepsInv(cfg, slept, e.sample);
    var sent := SendStats(slept, e.sample);
    if sent.1 {
      AnnounceKeepsInv(cfg, sent.0, MonitoringError);
    } else {
      SuperviseKeepsInv(cfg, if e.exitsAfterStats then Exited(sent.0) else sent.0, e.spawnOk, e.exitsBeforeReport);
    }
  }

  /** The loop keeps the invariant, tick after tick. */
  lemma {:induction false} LoopKeepsInv(cfg: Config, st: State, env: seq<TickEnv>)
    requires Inv(cfg, st)
    ensures Inv(cfg, Loop(cfg, st, env))
    decreases |env|
  {
    if !st.stopRequested {
      var e := if env == [] then Closing else env[0];
      TickKeepsInv(cfg, st, e);
      var next := Tick(cfg, st, e);
      if next.1 && env != [] {
        LoopKeepsInv(cfg, next.0, env[1..]);
      }
    }
  }

  /** A whole run keeps the invariant: consumers never receive the same stats
      record twice in a row, and with Telegram off or incompletely configured
      no push is ever attempted. A new monitor starts in a state that has it. */
  lemma RunKeepsInv(cfg: Config, st: State, spawnOk: bool, env: seq<TickEnv>)
    requires Inv(cfg, st)
    ensures Inv(cfg, Run(cfg, st, spawnOk, env))
  {
    EmitKeepsInv(cfg, st, LogLine(StartingMonitoring));
    var logged := Emit(st, LogLine(StartingMonitoring));
    EmitKeepsInv(cfg, logged, StatusChanged(Running));
    var announced := Emit(logged, StatusChanged(Running));
    StartScriptKeepsInv(cfg, announced, spawnOk);
    var started := StartScript(cfg, announced, spawnOk);
    if !started.1 {
      EmitKeepsInv(cfg, started.0, StatusChanged(Error));
    } else {
      LoopKeepsInv(cfg, started.0, env);
      StopKeepsInv(cfg, Loop(cfg, started.0, env));
    }
  }
}
