/** The main window's bookkeeping: the registry of scripts by name, the
    script list whose items show each script's status, and the selection.
    Widgets, dialogs and log output are left out; a dialog's answer is a
    parameter. */
module Manager {
  import opened Supervisor
  import opened Monitor
  import opened Labels

  datatype Option<T> = None | Some(value: T)

  /** How a command of the window ended. */
  datatype Outcome =
    | Done
    | Ignored          // the dialog was cancelled or the answer was "No"
    | AlreadyAdded     // warning: a script of that name is registered
    | NothingSelected  // warning: no script is selected
    | UnknownScript    // the registry lookup raises KeyError

  /** `os.path.basename` for the '/'-separated paths the file dialog returns:
      the longest suffix without a separator. */
  function Basename(path: string): (name: string)
    ensures '/' !in name
    ensures |name| <= |path| && name == path[|path| - |name|..]
    ensures |name| < |path| ==> path[|path| - |name| - 1] == '/'
  {
    if path == [] || path[|path| - 1] == '/' then []
    else Basename(path[..|path| - 1]) + [path[|path| - 1]]
  }

  /** The script names the list items stand for. */
  ghost function Names(items: seq<string>): set<string>
  {
    set t | t in items :: StripLabel(t)
  }

  /** The items left after removing every item that names `name`, in their
      order. */
  function WithoutScript(items: seq<string>, name: string): (r: seq<string>)
    ensures |r| <= |items|
  {
    if items == [] then []
    else
      var last := items[|items| - 1];
      WithoutScript(items[..|items| - 1], name) + (if StripLabel(last) != name then [last] else [])
  }

  /** An item remains exactly when it was in the list and does not name the
      removed script. */
  lemma {:induction false} WithoutScriptMembers(items: seq<string>, name: string, t: string)
    ensures t in WithoutScript(items, name) <==> t in items && StripLabel(t) != name
    decreases |items|
  {
    if items != [] {
      var init := items[..|items| - 1];
      var last := items[|items| - 1];
      assert items == init + [last];
      WithoutScriptMembers(init, name, t);
    }
  }

  /** Extending the scanned prefix by one item extends the kept items by that
      item exactly when it does not name the script. */
  lemma WithoutScriptStep(items: seq<string>, i: nat, name: string)
    requires i < |items|
    ensures WithoutScript(items[..i + 1], name)
              == WithoutScript(items[..i], name) + (if StripLabel(items[i]) != name then [items[i]] else [])
  {
    assert items[..i + 1][..i] == items[..i];
  }

  lemma NamesAppend(items: seq<string>, t: string)
    ensures Names(items + [t]) == Names(items) + {StripLabel(t)}
  {
    forall x | x in Names(items) ensures x in Names(items + [t]) {
      var u :| u in items && StripLabel(u) == x;
      assert u in items + [t];
    }
    assert t in items + [t];
  }

  lemma NamesWithout(items: seq<string>, name: string)
    ensures Names(WithoutScript(items, name)) == Names(items) - {name}
  {
    var r := WithoutScript(items, name);
    forall x | x in Names(items) - {name} ensures x in Names(r) {
      var u :| u in items && StripLabel(u) == x;
      WithoutScriptMembers(items, name, u);
    }
    forall x | x in Names(r) ensures x in Names(items) - {name} {
      var u :| u in r && StripLabel(u) == x;
      WithoutScriptMembers(items, name, u);
    }
  }

  lemma NamesPointwise(a: seq<string>, b: seq<string>)
    requires |a| == |b| && forall k :: 0 <= k < |a| ==> StripLabel(a[k]) == StripLabel(b[k])
    ensures Names(a) == Names(b)
  {
    forall x | x in Names(a) ensures x in Names(b) {
      var k :| 0 <= k < |a| && StripLabel(a[k]) == x;
      assert b[k] in b;
    }
    forall x | x in Names(b) ensures x in Names(a) {
      var k :| 0 <= k < |b| && StripLabel(b[k]) == x;
      assert a[k] in a;
    }
  }

  /** What `start_monitoring_for_script` does to a script's entry: a new,
      started monitor when it had none or its thread has ended, otherwise
      nothing. */
  twostate predicate LaunchedOrKept(info: ScriptInfo)
    reads info, info.monitor
  {
    var m := old(info.monitor);
    && info.path == old(info.path) && info.restarts == old(info.restarts)
    && info.maxRestarts == old(info.maxRestarts) && info.telegram == old(info.telegram)
    && if m == null || !old(m.threadAlive) then
         && info.monitor != null && fresh(info.monitor) && info.monitor.info == info
         && info.monitor.threadAlive && info.status == Starting
         && info.monitor.Snapshot() == Initial(info.restarts) && info.monitor.Mirrored()
         && info.monitor.Cfg() == Config(info.maxRestarts, info.telegram)
       else
         info.monitor == m && info.status == old(info.status)
  }

  class ServerMonitorGUI {
    var monitors: map<string, ScriptInfo>
    var items: seq<string>
    var currentScript: Option<string>

    /** Every entry is filed under its script's name, and the list shows
        exactly the registered scripts. */
    ghost predicate Valid()
      reads this
    {
      && (forall n :: n in monitors ==> monitors[n].name == n)
      && Names(items) == monitors.Keys
    }

    constructor ()
      ensures Valid() && monitors == map[] && items == [] && currentScript == None
    {
      monitors := map[];
      items := [];
      currentScript := None;
    }

    /** `not self.current_script`: nothing selected, or an empty name. */
    predicate NoSelection()
      reads this
    {
      currentScript.None? || currentScript.value == ""
    }

    /** The entry of the selected script, when there is one. */
    ghost function SelectedInfo(): set<ScriptInfo>
      reads this
    {
      if currentScript.Some? && currentScript.value in monitors then {monitors[currentScript.value]} else {}
    }

    /** The monitor of the selected script, when there is one. */
    ghost function SelectedMonitor(): set<object>
      reads this, SelectedInfo()
    {
      set i | i in SelectedInfo() && i.monitor != null :: i.monitor as object
    }

    /** Every registry entry. */
    ghost function Infos(): set<ScriptInfo>
      reads this
    {
      set n | n in monitors :: monitors[n]
    }

    /** `add_script` with the path the file dialog returned ("" when it was
        cancelled). A new script is registered as stopped under its file
        name and listed with the red mark; a name already registered is
        refused. */
    method AddScript(filePath: string) returns (r: Outcome)
      requires Valid()
      modifies this
      ensures Valid() && currentScript == old(currentScript)
      ensures filePath == "" ==> r == Ignored
      ensures filePath != "" && Basename(filePath) in old(monitors) ==> r == AlreadyAdded
      ensures r == Done <==> filePath != "" && Basename(filePath) !in old(monitors)
      ensures r != Done ==> monitors == old(monitors) && items == old(items)
      ensures r == Done ==>
                var name := Basename(filePath);
                && items == old(items) + [Label(name, Stopped)]
                && monitors.Keys == old(monitors).Keys + {name}
                && (forall n :: n in old(monitors) ==> monitors[n] == old(monitors)[n])
                && fresh(monitors[name])
                && monitors[name].path == filePath && monitors[name].monitor == null
                && monitors[name].status == Stopped && monitors[name].restarts == 0
                && monitors[name].maxRestarts == 5
                && monitors[name].telegram == Telegram(false, "", "")
    {
      if filePath == "" {
        return Ignored;
      }
      var name := Basename(filePath);
      if name in monitors {
        return AlreadyAdded;
      }
      NamesAppend(items, Label(name, Stopped));
      LabelRoundTrip(name, Stopped);
      items := items + [Label(name, Stopped)];
      var info := new ScriptInfo(name, filePath);
      monitors := monitors[name := info];
      return Done;
    }

    /** `start_monitoring_for_script`; names that are not registered are
        ignored. */
    method StartMonitoringForScript(name: string)
      requires Valid()
      modifies if name in monitors then {monitors[name]} else {}
      ensures Valid()
      ensures name in monitors ==> LaunchedOrKept(monitors[name])
    {
      if name in monitors {
        var info := monitors[name];
        if info.monitor == null || !info.monitor.threadAlive {
          var monitor := new ScriptMonitor(info);
          info.monitor := monitor;
          info.status := Starting;
          monitor.Start();
        }
      }
    }

    /** `start_monitoring`: the selected script, if any. */
    method StartMonitoring() returns (r: Outcome)
      requires Valid()
      modifies SelectedInfo()
      ensures Valid()
      ensures r == (if NoSelection() then NothingSelected else Done)
      ensures !NoSelection() && currentScript.value in monitors ==>
                LaunchedOrKept(monitors[currentScript.value])
    {
      if NoSelection() {
        return NothingSelected;
      }
      StartMonitoringForScript(currentScript.value);
      return Done;
    }

    /** `stop_monitoring`: stop the selected script's monitor if its thread
        is alive, and record the script as stopped. A selected name that is
        not registered makes the lookup raise. */
    method StopMonitoring() returns (r: Outcome)
      requires Valid()
      modifies SelectedInfo(), SelectedMonitor()
      ensures Valid()
      ensures NoSelection() ==> r == NothingSelected
      ensures !NoSelection() && currentScript.value !in monitors ==> r == UnknownScript
      ensures r != Done ==> unchanged(SelectedInfo()) && unchanged(SelectedMonitor())
      ensures !NoSelection() && currentScript.value in monitors ==>
                var info := monitors[currentScript.value];
                && r == Done
                && info.monitor == old(info.monitor)
                && if info.monitor != null && old(info.monitor.threadAlive) then
                     && info.monitor.Snapshot() == Supervisor.Stop(info.monitor.Cfg(), old(info.monitor.Snapshot()))
                     && info.monitor.threadAlive == old(info.monitor.threadAlive)
                     && info.status == Stopped
                     && info.restarts == old(info.restarts) && info.path == old(info.path)
                     && info.maxRestarts == old(info.maxRestarts) && info.telegram == old(info.telegram)
                   else
                     unchanged(info) && unchanged(SelectedMonitor())
    {
      if NoSelection() {
        return NothingSelected;
      }
      if currentScript.value !in monitors {
        return UnknownScript;
      }
      var info := monitors[currentScript.value];
      if info.monitor != null && info.monitor.threadAlive {
        info.monitor.Stop();
        info.status := Stopped;
      }
      return Done;
    }

    /** `update_status`, the slot of the status signal: only registered
        names are touched. */
    method UpdateStatus(name: string, status: Status)
      requires Valid()
      modifies if name in monitors then {monitors[name]} else {}
      ensures Valid()
      ensures name in monitors ==>
                && monitors[name].status == status
                && monitors[name].monitor == old(monitors[name].monitor)
                && monitors[name].restarts == old(monitors[name].restarts)
                && monitors[name].path == old(monitors[name].path)
                && monitors[name].maxRestarts == old(monitors[name].maxRestarts)
                && monitors[name].telegram == old(monitors[name].telegram)
    {
      if name in monitors {
        monitors[name].status := status;
      }
    }

    /** `remove_script`; `confirmed` is the answer to the confirmation
        dialog. A live monitor is stopped, the entry is dropped and every
        list item naming the script goes; the selection is cleared. */
    method RemoveScript(confirmed: bool) returns (r: Outcome)
      requires Valid()
      modifies this, SelectedMonitor()
      ensures Valid()
      ensures old(NoSelection()) ==> r == NothingSelected
      ensures !old(NoSelection()) && !confirmed ==> r == Ignored
      ensures r != Done ==> unchanged(this) && unchanged(old(SelectedMonitor()))
      ensures !old(NoSelection()) && confirmed ==>
                var name := old(currentScript).value;
                && r == Done
                && monitors == old(monitors) - {name}
                && items == WithoutScript(old(items), name)
                && currentScript == None
                && (name in old(monitors) && old(monitors[name].monitor) != null ==>
                      var m := old(monitors[name].monitor);
                      if old(m.threadAlive) then
                        m.Snapshot() == Supervisor.Stop(m.Cfg(), old(m.Snapshot()))
                        && m.threadAlive
                      else unchanged(m))
    {
      if NoSelection() {
        return NothingSelected;
      }
      if !confirmed {
        return Ignored;
      }
      var name := currentScript.value;
      if name in monitors {
        var monitor := monitors[name].monitor;
        if monitor != null && monitor.threadAlive {
          monitor.Stop();
        }
        monitors := monitors - {name};
      }
      NamesWithout(items, name);
      TakeItems(name);
      currentScript := None;
      return Done;
    }

    /** The part of `remove_script` that finds the items whose stripped
        text is `name` and takes them out of the list. */
    method TakeItems(name: string)
      modifies this`items
      ensures items == WithoutScript(old(items), name)
    {
      var all := items;
      var kept: seq<string> := [];
      var i := 0;
      while i < |all|
        invariant 0 <= i <= |all|
        invariant kept == WithoutScript(all[..i], name)
      {
        WithoutScriptStep(all, i, name);
        if StripLabel(all[i]) != name {
          kept := kept + [all[i]];
        }
        i := i + 1;
      }
      assert all[..|all|] == all;
      items := kept;
    }

    /** The item text `update_script_list_status` gives an item: the status
        mark of its script when the script is registered. */
    function Refreshed(text: string): (r: string)
      reads this, Infos()
      ensures StripLabel(r) == StripLabel(text)
      ensures StripLabel(text) in monitors ==> StartsWith(r, MarkFor(monitors[StripLabel(text)].status))
    {
      var name := StripLabel(text);
      if name in monitors then Relabel(text, monitors[name].status) else text
    }

    /** `update_script_list_status`: every item is refreshed in place, and
        the list still names the same scripts in the same order. */
    method UpdateScriptListStatus()
      requires Valid()
      modifies this`items
      ensures Valid()
      ensures |items| == |old(items)|
      ensures forall k :: 0 <= k < |items| ==> items[k] == Refreshed(old(items)[k])
    {
      var i := 0;
      while i < |items|
        invariant 0 <= i <= |items| == |old(items)|
        invariant forall k :: 0 <= k < i ==> items[k] == Refreshed(old(items)[k])
        invariant forall k :: i <= k < |items| ==> items[k] == old(items)[k]
      {
        var text := items[i];
        var name := StripLabel(text);
        if name in monitors {
          items := items[i := Relabel(text, monitors[name].status)];
        }
        i := i + 1;
      }
      NamesPointwise(items, old(items));
    }

    /** `on_script_selected`: the selection becomes the name of the chosen
        item; clearing the selection keeps the previous name. Choosing an
        item of the list always selects a registered script. */
    method OnScriptSelected(current: Option<string>)
      requires Valid()
      modifies this`currentScript
      ensures current.Some? ==> currentScript == Some(StripLabel(current.value))
      ensures current.None? ==> currentScript == old(currentScript)
      ensures current.Some? && current.value in items ==> currentScript.value in monitors
    {
      if current.Some? {
        currentScript := Some(StripLabel(current.value));
      }
    }
  }
}
