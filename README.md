# MNGserver supervision core in Dafny

MNGserver is a desktop tool that keeps Python scripts running. It launches
each registered script as a child process and supervises it from a monitor
thread. Every check interval the monitor:

- samples the child's CPU and memory;
- sends the stats record to the window, but only when it changed;
- restarts a dead child within a restart budget;
- reports progress through log lines, status signals and optional
  Telegram pushes.

The main window holds the registry of scripts by name and a list whose items
show each script's name behind a green (running) or red (any other status)
circle.

This project models that core:

- **`Supervisor`** (`supervisor.dfy`): the supervision logic as pure functions
  over an explicit `State`. The state holds the restart counter, the child
  process handle, the last stats record, the stop flag, and the log of
  emitted signals and pushes.
  - The world is an oracle value. Per loop iteration, a `TickEnv` says:
    - whether the child exits on its own, and at which of the three points
      of an iteration (during the sleep, after its stats are read, or after
      the liveness check);
    - whether the host calls `stop()`;
    - what introspection returns;
    - whether a relaunch succeeds.
  - The lemmas prove the counter bounds and the restart refusal, the event
    order of a failed start, the terminal "stopped" status, and the stats
    change suppression. They also prove that no push is attempted unless
    Telegram is fully configured.
- **`Monitor`** (`monitor.dfy`): the `ScriptMonitor` thread object and the
  per-script settings entry (`ScriptInfo`) as classes. Each method changes
  the fields exactly as the matching `Supervisor` function changes a
  `State`.
  - `restart_script` also writes the counter back into the shared settings
    entry, and `Mirrored()` states that the two stay equal.
- **`Labels`** (`labels.dfy`): the status marks of list items. It holds the
  strip as written (two `str.replace` calls over the whole text), a proof
  that it mangles names containing a mark, and the intended strip with its
  round trip.
- **`Charts`** (`charts.dfy`): `ResourceChart.add_data_point`, which keeps a
  bounded window of the latest values and rebuilds an (index, value) series
  from it.
- **`Manager`** (`manager.dfy`): the window's registry operations:
  - `add_script`, `start_monitoring` / `start_monitoring_for_script`,
    `stop_monitoring`, `update_status`, `remove_script`;
  - the list refresh `update_script_list_status` and the selection handler
    `on_script_selected`.

  Its invariant `Valid()` says two things:

  - every entry is filed under its own name;
  - the names the list items stand for are exactly the registered names.

Where the code and the design description of the program disagree, the model
follows the code:

- When a process vanishes or denies access during introspection, the code
  sends zero for each value not yet read (both, or only memory when cpu was
  read first), not the previous values.
- There are no interval-based scheduled restarts.
- A run whose loop ends on a refused restart emits "error" and then "stopped",
  because `stop()` runs in the `finally` clause.
- A failed first launch emits "error" and returns before the `try`, so it
  never emits "stopped".
- `stop()` is not idempotent. When the host stops a running monitor, its
  call emits "stopped", and the `stop()` in the `finally` clause emits
  "stopped" again.

## Model

| member | source | states |
|---|---|---|
| Supervisor.Telegram.ShouldPush | MNGserver.py:235 | the guard refuses when notifications are disabled or the token or chat id is empty, and admits otherwise |
| Supervisor.Process.IsAlive | MNGserver.py:190-191 | no process is never running; a child is running exactly when it has not exited |
| Supervisor.Notify | MNGserver.py:234-247 | the event log gains one push exactly when the guard holds and nothing otherwise; earlier events are kept and nothing else changes, so a failing push is swallowed |
| Supervisor.Announce | MNGserver.py:180-182 | the event log gains the log line, followed by its push when Telegram is configured; earlier events are kept and counters, process and stats are untouched |
| Supervisor.Exited | MNGserver.py:200-208 | after terminate, wait and kill the child is not running (and a monitor without a process still has none); nothing else changes |
| Supervisor.StartScript | MNGserver.py:172-188 | the result is the launch outcome; on success the child is alive and "Started" is logged next, on failure the old process stays and "Start error" is logged; counter, stats and stop flag are unchanged |
| Supervisor.RestartScript | MNGserver.py:193-212 | at or over the budget: returns false, counter and process unchanged, "restart limit" logged; below it: counter +1 whether or not the launch works, old child gone, result equals the launch outcome |
| Supervisor.Record | MNGserver.py:215-227 | the record always carries the restart counter; cpu and memory are zero when the child is not alive or vanished before anything was read, memory alone is zero when it vanished after cpu was read, and both are the readings otherwise |
| Supervisor.SendStats | MNGserver.py:214-232 | raises exactly when the child is alive and introspection fails otherwise, changing nothing; else emits the record iff it differs from `last_stats`, and `last_stats` is the record afterwards |
| Supervisor.Stop | MNGserver.py:249-263 | stop flag set, no live child, "stopped" is the last event; counter and last stats unchanged |
| Supervisor.ReportRunning | MNGserver.py:162-163 | the event log gains "running" exactly when the child is alive, and nothing else changes |
| Supervisor.Sleep | MNGserver.py:149 | during the sleep an external `stop()` leaves the flag set and no live child; counter and stats are untouched |
| Supervisor.Supervise | MNGserver.py:153-163 | one liveness check raises the counter by at most one and never past the budget; a live child or a set stop flag means no restart; with a dead child and the flag clear the loop goes on exactly when the restart is within the budget and the relaunch works; leaving the loop means "error" was the last event; going on with a live child means "running" was |
| Supervisor.Tick | MNGserver.py:148-168 | one loop iteration keeps the counter within `[c, c+1]` and within the budget; an external stop keeps the loop going to its test; leaving the loop ends on "error" or the exception report |
| Supervisor.Loop | MNGserver.py:148-168 | the loop never lowers the counter, never takes it past the budget, and ends only with the stop flag set or on a failure |
| Supervisor.Run | MNGserver.py:139-170 | a failed first launch ends on "error" with counter and process unchanged; otherwise the run ends stopped, with no live child and "stopped" as the last event; the counter never decreases and stays within the budget |
| Supervisor.Initial | MNGserver.py:132-137 | a new monitor carries over the settings' counter, with no events, so stats suppression holds and no push was made |
| Supervisor.FailedStartNeverLoops | MNGserver.py:140-145 | a failed first launch emits exactly: starting log, "running", start error log, the push if configured, "error" |
| Supervisor.DeadChildOutcome | MNGserver.py:153-160 | a tick whose child is dead at the liveness check (and whose sample, if it would raise, is never read) goes on exactly when the restart is within the budget and the relaunch works, and otherwise ends on "error" |
| Supervisor.TickReportsRunning | MNGserver.py:162-163 | a tick that goes on with a live child ends on the "running" status |
| Supervisor.CrashTickOutcome | MNGserver.py:153-160 | a tick with a dead child: below the budget the counter grows by one and the loop goes on; at the budget the tick leaves the loop on "error" with the counter unchanged |
| Supervisor.CrashBudget | MNGserver.py:193-212 | under repeated crashes the counter climbs to `min(c + n, max_restarts)`; once the budget is exceeded the loop ends on "error" |
| Supervisor.ThreeCrashesWithBudgetTwo | MNGserver.py:139-170 | with budget 2 and three crashes: counter 2, an "error" status was emitted, and the run still ends with "stopped" |
| Supervisor.HostStopReportsStoppedTwice | MNGserver.py:170 | a monitor stopped by the host during its loop emits "stopped" twice: from the host's `stop()` and from the one in `finally` |
| Supervisor.StartScriptEvents | MNGserver.py:180-187 | `start_script` keeps the earlier events and appends the outcome's log line, followed by its push when Telegram is configured |
| Supervisor.RestartScriptEvents | MNGserver.py:194-212 | `restart_script` keeps the earlier events and appends the restart-limit line at the budget or the launch outcome's line below it, each followed by its push when Telegram is configured |
| Supervisor.StopEvents | MNGserver.py:260-263 | `stop` keeps the earlier events and appends "Stopped monitoring", its push when Telegram is configured, and the "stopped" status |
| Supervisor.StopKeepsEvents | MNGserver.py:249-263 | `stop` only appends: the old event log is a proper prefix of the new one |
| Supervisor.SendStatsIdempotent | MNGserver.py:229-232 | two calls with the same reading emit at most once: the second finds its record stored |
| Supervisor.AnnounceKeepsInv | MNGserver.py:234-236 | logging and notifying keep stats suppression, and make no push when Telegram is not configured |
| Supervisor.RestartScriptKeepsInv | MNGserver.py:193-212 | a restart keeps the invariant |
| Supervisor.SendStatsKeepsInv | MNGserver.py:229-232 | no stats record is delivered twice in a row, and the last one delivered is `last_stats` |
| Supervisor.StopKeepsInv | MNGserver.py:249-263 | `stop` keeps the invariant |
| Supervisor.SuperviseKeepsInv | MNGserver.py:153-163 | the liveness check keeps the invariant |
| Supervisor.TickKeepsInv | MNGserver.py:148-168 | one loop iteration keeps the invariant |
| Supervisor.LoopKeepsInv | MNGserver.py:148-168 | the whole loop keeps the invariant |
| Supervisor.RunKeepsInv | MNGserver.py:139-170 | a whole run never delivers the same stats record twice in a row and, with Telegram unconfigured, never pushes |
| Monitor.ScriptInfo.constructor | MNGserver.py:822-836 | a new entry is stopped, with 0 restarts, a budget of 5, and Telegram off with an empty token and chat id |
| Monitor.ScriptMonitor.constructor | MNGserver.py:120-137 | the monitor copies budget and Telegram settings from the entry and starts with its counter, no process, zero stats and the stop flag clear |
| Monitor.ScriptMonitor.IsRunning | MNGserver.py:190-191 | the monitor is running exactly when it has a child that has not exited |
| Monitor.ScriptMonitor.SendTelegramMessage | MNGserver.py:234-247 | the fields change as `Supervisor.Notify` says |
| Monitor.ScriptMonitor.StartScript | MNGserver.py:172-188 | fields and result are those of `Supervisor.StartScript` |
| Monitor.ScriptMonitor.RestartScript | MNGserver.py:193-212 | fields and result are those of `Supervisor.RestartScript`, and the entry's `restarts` equals the new counter |
| Monitor.ScriptMonitor.SendStats | MNGserver.py:214-232 | fields and result are those of `Supervisor.SendStats` |
| Monitor.ScriptMonitor.Stop | MNGserver.py:249-263 | fields change as `Supervisor.Stop` says |
| Monitor.ScriptMonitor.Start | MNGserver.py:930 | after `start()` the thread is alive |
| Monitor.ScriptMonitor.Sleep | MNGserver.py:149 | fields change as `Supervisor.Sleep` says |
| Monitor.ScriptMonitor.ChildMayExit | MNGserver.py:191 | the child exits on its own exactly when the environment says so, and nothing else changes |
| Monitor.ScriptMonitor.CheckLiveness | MNGserver.py:153-163 | the liveness check changes the fields and decides whether to go on as `Supervisor.Supervise` says, keeping the entry's counter mirrored |
| Monitor.ScriptMonitor.Iteration | MNGserver.py:148-168 | one pass of the loop changes the fields as `Supervisor.Tick` says and keeps the entry's counter mirrored |
| Monitor.ScriptMonitor.Watch | MNGserver.py:147-168 | the `while` loop changes the fields as `Supervisor.Loop` says and keeps the entry's counter mirrored |
| Monitor.ScriptMonitor.Run | MNGserver.py:139-170 | `run` changes the fields as `Supervisor.Run` says, the thread has ended afterwards, and the entry's counter equals the monitor's |
| Labels.MarkFor | MNGserver.py:773-778 | a mark is a circle and a space; it is green exactly for "running" |
| Labels.Label | MNGserver.py:821 | an item is the two-character mark of the status followed by the name |
| Labels.ReplaceAll | MNGserver.py:769 | `str.replace` with an empty replacement never lengthens the text |
| Labels.ReplaceAllAbsent | MNGserver.py:769 | `str.replace` leaves a text in which the pattern's first character does not occur unchanged |
| Labels.StripStatus | MNGserver.py:769 | the strip as written never lengthens the item's text |
| Labels.StripStatusRoundTrip | MNGserver.py:769 | the written strip recovers a name that contains neither circle from its item |
| Labels.StripStatusLosesName | MNGserver.py:769 | the written strip turns the item of the file "🟢 a.py" into "a.py" |
| Labels.StripLabel | MNGserver.py:796 | the intended strip removes a leading mark and nothing else |
| Labels.LabelRoundTrip | MNGserver.py:821 | every name, whatever it contains, is recovered from its item by the intended strip |
| Labels.Relabel | MNGserver.py:771-778 | a refreshed item carries the mark of the status and names the same script |
| Charts.Window | MNGserver.py:109 | after appending `v` the window has length `min(n + 1, max_points)`, ends in `v`, and drops its oldest value when full |
| Charts.Enumerate | MNGserver.py:116-117 | point k of the series is `(k, data[k])` for every k, and the lengths match |
| Charts.ResourceChart.constructor | MNGserver.py:109-110 | a new chart has an empty window of capacity `max_points` |
| Charts.ResourceChart.AddDataPoint | MNGserver.py:112-117 | the window slides as `Window` says, and the series is rebuilt as the enumeration of the new window |
| Manager.Basename | MNGserver.py:819 | the file name is the longest suffix of the path without '/', preceded by a '/' when shorter than the path |
| Manager.WithoutScript | MNGserver.py:897-905 | the items left after a removal are never more than before |
| Manager.WithoutScriptMembers | MNGserver.py:897-905 | an item survives removal exactly when it was listed and does not name the removed script |
| Manager.NamesAppend | MNGserver.py:821 | listing an item adds its name to the names the list shows |
| Manager.NamesWithout | MNGserver.py:896-905 | after removing the items of a script, the list shows every other name and not that one |
| Manager.NamesPointwise | MNGserver.py:766-778 | relabelling items in place keeps the set of names the list shows |
| Manager.ServerMonitorGUI.constructor | MNGserver.py:401-404 | the registry and the list start empty, with nothing selected |
| Manager.ServerMonitorGUI.AddScript | MNGserver.py:813-842 | a cancelled dialog does nothing; an already registered name is refused and nothing changes; otherwise a fresh stopped entry is filed under the file name, a red item is appended, and other entries are kept |
| Manager.ServerMonitorGUI.StartMonitoringForScript | MNGserver.py:918-931 | an unknown name is ignored; an entry with no monitor or a finished one gets a fresh, started monitor and status "starting"; an entry whose monitor is alive is left alone |
| Manager.ServerMonitorGUI.StartMonitoring | MNGserver.py:911-916 | with nothing selected it warns; otherwise it starts monitoring the selected script |
| Manager.ServerMonitorGUI.StopMonitoring | MNGserver.py:933-943 | with nothing selected it warns; an unregistered selection raises; a live monitor is stopped (its thread stays alive until `run` returns) and the entry marked stopped, keeping its restart counter, path, budget and Telegram settings; otherwise nothing changes |
| Manager.ServerMonitorGUI.UpdateStatus | MNGserver.py:945-947 | the status of a registered name is set, and nothing else in its entry changes |
| Manager.ServerMonitorGUI.RemoveScript | MNGserver.py:869-909 | with nothing selected it warns, and on "No" nothing changes; otherwise a live monitor is stopped (its thread stays alive), the entry is deleted, exactly the items naming the script go (order kept), and the selection is cleared |
| Manager.ServerMonitorGUI.TakeItems | MNGserver.py:897-905 | the list becomes the old list without the items naming the script |
| Manager.ServerMonitorGUI.Refreshed | MNGserver.py:769-778 | a refreshed item names the same script and carries the mark of its status when registered |
| Manager.ServerMonitorGUI.UpdateScriptListStatus | MNGserver.py:766-778 | each item is refreshed in place, and the list still shows exactly the registered names |
| Manager.ServerMonitorGUI.OnScriptSelected | MNGserver.py:794-797 | the selection becomes the chosen item's name; choosing a listed item selects a registered script |

## Left out

- Process control (`subprocess.Popen`, `poll`, `terminate`, `wait`, `kill`) is an abstract handle. Its `alive` flag and the launch outcome `spawnOk` are supplied by the environment.
- `psutil` readings and their `round(...)` are opaque reals supplied per tick. Float arithmetic is not modelled.
- The HTTP request to Telegram is the `Pushed` event. Its payload, URL and timeout are not modelled.
- Threads, `Event`, `time.sleep` and `check_interval` are left out, as are Qt signals (appends to an event log) and the GUI timers.
  - An external `stop()` is modelled as happening during the sleep of an iteration.
  - The child's own exit is observed only through `poll()`, at the three checks of an iteration (lines 221, 153 and 162). An exit between two checks is modelled as an exit at the next one.
  - The GUI calling `stop()` on a monitor runs on the GUI side, so interleavings with the monitor thread are not modelled.
- Monitor.ScriptMonitor.Run: only `send_stats` is modelled as raising inside the `try` block. Other code there does not raise except through foreign calls.
- The wording of log lines and pushes, log timestamps, and the log file are left out. A message is identified by its kind.
- Manager.Basename: handles '/' as the only separator, the one Qt's file dialog uses in the paths it returns.
- Labels.ReplaceAllAbsent: covers non-empty patterns only; the marks are never empty.
- The strip in `update_script_list_status`, `on_script_selected` and `remove_script` is the corrected `Labels.StripLabel`, not the one in the code (see Findings).
- Manager.ServerMonitorGUI.AddScript: the entry's `check_interval`, `stats`, histories and charts are not modelled.
- `update_stats` and `create_charts_for_script` are not part of this model: the per-script charts, their histories and the stats display.
- `closeEvent`, `update_control_buttons`, `update_tabs` and the settings tab are not part of this model.
- Scheduled restarts and uptime sampling are absent from the code, so they are not modelled.

## Findings

| source | as written | input that shows it | evidently intended | confidence | as-written member | corrected member |
|---|---|---|---|---|---|---|
| MNGserver.py:769 | the name is recovered from an item by removing every "🟢 " and then every "🔴 " anywhere in the text | the file "🟢 a.py", listed as "🔴 🟢 a.py", is recovered as "a.py"; the same strip at lines 796 and 900 selects and removes by that wrong name | remove only the one status mark the item starts with | not executed | Labels.StripStatusLosesName | Labels.LabelRoundTrip |
