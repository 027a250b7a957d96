/** The focus rail's task controls: completing and un-completing a task,
    focusing on one, and pausing or resuming the timer. Each handler reads
    the log it was rendered with and writes through `updateLog`, one call
    after another. */
module NowRail {
  import opened Wrappers
  import opened Types
  import Planner
  import App
  import JsText

  const BlockedToggleMessage: string := "This task is blocked by dependencies."
  const BlockedFocusMessage: string := "Cannot focus on a blocked task."
  const TimerFinishedMessage: string := "Timer Finished."

  /** The rail's blocked rule: some dependency exists and is not done; an id
      that names no task never blocks. */
  predicate IsBlocked(tasks: seq<Task>, t: Task) {
    exists i :: 0 <= i < |t.dependencies| && BlocksHere(tasks, t.dependencies[i])
  }

  predicate BlocksHere(tasks: seq<Task>, depId: string) {
    Planner.FindTask(tasks, depId).Some? && !Planner.FindTask(tasks, depId).value.done
  }

  /** `log.tasks.map(t => t.id === taskId ? { ...t, done } : t)`. */
  function SetDone(tasks: seq<Task>, taskId: string, done: bool): (r: seq<Task>)
    ensures |r| == |tasks|
  {
    seq(|tasks|, i requires 0 <= i < |tasks| => if tasks[i].id == taskId then tasks[i].(done := done) else tasks[i])
  }

  /** `addLogEntry` as the handlers call it: the entry goes after the
      entries of the log they were rendered with. */
  function LogEntryPatch(rendered: DayLog, entryId: string, now: int, sender: Sender, message: string): App.LogPatch {
    App.NoUpdates.(sessionLog := Some(rendered.sessionLog + [ChatEntry(entryId, now, sender, message)]))
  }

  /** `handleTaskToggle`: the new log and the blocked message, if any. */
  function TaskToggleSpec(log: DayLog, taskId: string, entryId: string, now: int): (DayLog, Option<string>) {
    match Planner.FindTask(log.tasks, taskId)
    case None => (log, None)
    case Some(task) =>
      if IsBlocked(log.tasks, task) && !task.done then (log, Some(BlockedToggleMessage))
      else
        var newStatus := !task.done;
        var activeUpdate := if log.activeTaskId == Some(taskId) && newStatus then Some(None) else None;
        var first := App.Merge(log, App.NoUpdates.(tasks := Some(SetDone(log.tasks, taskId, newStatus)),
                                                   activeTaskId := activeUpdate));
        var message := if newStatus then "Completed: " + task.title else "Undid: " + task.title;
        (App.Merge(first, LogEntryPatch(log, entryId, now, System, message)), None)
  }

  /** `setActiveTask`. */
  function SetActiveTaskSpec(log: DayLog, taskId: string, entryId: string, now: int): (DayLog, Option<string>) {
    match Planner.FindTask(log.tasks, taskId)
    case None => (log, None)
    case Some(task) =>
      if IsBlocked(log.tasks, task) then (log, Some(BlockedFocusMessage))
      else
        var first := App.Merge(log, App.NoUpdates.(activeTaskId := Some(Some(taskId))));
        (App.Merge(first, LogEntryPatch(log, entryId, now, System, "Focusing on: " + task.title)), None)
  }

  /** `toggleTimer`. */
  function ToggleTimerSpec(log: DayLog, entryId: string, now: int): DayLog {
    var newState := !log.isTimerRunning;
    var first := App.Merge(log, App.NoUpdates.(isTimerRunning := Some(newState)));
    App.Merge(first, LogEntryPatch(log, entryId, now, System, if newState then "Timer Resumed" else "Timer Paused"))
  }

  /** `handleTimerComplete`, the timer hook's completion callback: stop the
      timer, then append to the rendered journal. */
  function TimerCompleteSpec(log: DayLog, entryId: string, now: int): DayLog {
    var first := App.Merge(log, App.NoUpdates.(isTimerRunning := Some(false)));
    App.Merge(first, LogEntryPatch(log, entryId, now, System, TimerFinishedMessage))
  }

  /** `submitChat`: the new log and the chat input afterwards. */
  function SubmitChatSpec(log: DayLog, chatInput: string, entryId: string, now: int): (DayLog, string) {
    if JsText.Trim(chatInput) == "" then (log, chatInput)
    else (App.Merge(log, LogEntryPatch(log, entryId, now, User, chatInput)), "")
  }

  /** `addLogEntry`, called with the log the handler was rendered with. */
  method AddLogEntry(store: App.AppStore, rendered: DayLog, entryId: string, now: int, sender: Sender, message: string)
    modifies store
    ensures store.log == App.Merge(old(store.log), LogEntryPatch(rendered, entryId, now, sender, message))
  {
    store.UpdateLog(LogEntryPatch(rendered, entryId, now, sender, message));
  }

  /** `handleTaskToggle` on the shell's store; `message` is what the blocked
      dialog shows. */
  method HandleTaskToggle(store: App.AppStore, taskId: string, entryId: string, now: int)
    returns (message: Option<string>)
    modifies store
    ensures (store.log, message) == TaskToggleSpec(old(store.log), taskId, entryId, now)
  {
    var log := store.log;
    var found := Planner.FindTask(log.tasks, taskId);
    if found.None? {
      return None;
    }
    var task := found.value;
    var isBlocked := IsBlocked(log.tasks, task);
    if isBlocked && !task.done {
      return Some(BlockedToggleMessage);
    }
    var newStatus := !task.done;
    var updatedTasks := SetDone(log.tasks, taskId, newStatus);
    var activeUpdate: Option<Option<string>> := None;
    if log.activeTaskId == Some(taskId) && newStatus {
      activeUpdate := Some(None);
    }
    store.UpdateLog(App.NoUpdates.(tasks := Some(updatedTasks), activeTaskId := activeUpdate));
    if newStatus {
      AddLogEntry(store, log, entryId, now, System, "Completed: " + task.title);
    } else {
      AddLogEntry(store, log, entryId, now, System, "Undid: " + task.title);
    }
    message := None;
  }

  /** `setActiveTask` on the shell's store. */
  method SetActiveTask(store: App.AppStore, taskId: string, entryId: string, now: int)
    returns (message: Option<string>)
    modifies store
    ensures (store.log, message) == SetActiveTaskSpec(old(store.log), taskId, entryId, now)
  {
    var log := store.log;
    var found := Planner.FindTask(log.tasks, taskId);
    if found.None? {
      return None;
    }
    var task := found.value;
    if IsBlocked(log.tasks, task) {
      return Some(BlockedFocusMessage);
    }
    store.UpdateLog(App.NoUpdates.(activeTaskId := Some(Some(taskId))));
    AddLogEntry(store, log, entryId, now, System, "Focusing on: " + task.title);
    message := None;
  }

  /** `toggleTimer` on the shell's store. */
  method ToggleTimer(store: App.AppStore, entryId: string, now: int)
    modifies store
    ensures store.log == ToggleTimerSpec(old(store.log), entryId, now)
  {
    var log := store.log;
    var newState := !log.isTimerRunning;
    store.UpdateLog(App.NoUpdates.(isTimerRunning := Some(newState)));
    AddLogEntry(store, log, entryId, now, System, if newState then "Timer Resumed" else "Timer Paused");
  }

  /** `handleTimerComplete` on the shell's store. */
  method HandleTimerComplete(store: App.AppStore, entryId: string, now: int)
    modifies store
    ensures store.log == TimerCompleteSpec(old(store.log), entryId, now)
  {
    var log := store.log;
    store.UpdateLog(App.NoUpdates.(isTimerRunning := Some(false)));
    AddLogEntry(store, log, entryId, now, System, TimerFinishedMessage);
  }

  /** `submitChat` on the shell's store; `input` is the chat box afterwards. */
  method SubmitChat(store: App.AppStore, chatInput: string, entryId: string, now: int)
    returns (input: string)
    modifies store
    ensures (store.log, input) == SubmitChatSpec(old(store.log), chatInput, entryId, now)
  {
    if JsText.Trim(chatInput) == "" {
      return chatInput;
    }
    AddLogEntry(store, store.log, entryId, now, User, chatInput);
    input := "";
  }

  // ---------------------------------------------------------------
  // Properties
  // ---------------------------------------------------------------

  /** Every field but the tasks, the active task and the session log is
      carried over. */
  predicate SameSetting(a: DayLog, b: DayLog) {
    a.(tasks := b.tasks, activeTaskId := b.activeTaskId, sessionLog := b.sessionLog, isTimerRunning := b.isTimerRunning) == b
  }

  /** The toggle ignores unknown ids, refuses to complete a task blocked by
      an existing undone dependency, and otherwise flips `done` on the tasks
      with that id and on no other, logging one entry. */
  lemma TaskToggleEffect(log: DayLog, taskId: string, entryId: string, now: int)
    ensures var (r, msg) := TaskToggleSpec(log, taskId, entryId, now);
      (Planner.FindTask(log.tasks, taskId).None? ==> r == log && msg == None)
      && (Planner.FindTask(log.tasks, taskId).Some? ==>
            var task := Planner.FindTask(log.tasks, taskId).value;
            (IsBlocked(log.tasks, task) && !task.done ==> r == log && msg == Some(BlockedToggleMessage))
            && (!(IsBlocked(log.tasks, task) && !task.done) ==>
                  msg == None && SameSetting(log, r) && r.isTimerRunning == log.isTimerRunning
                  && |r.tasks| == |log.tasks|
                  && (forall i :: 0 <= i < |log.tasks| ==>
                        r.tasks[i] == (if log.tasks[i].id == taskId then log.tasks[i].(done := !task.done) else log.tasks[i]))
                  && r.sessionLog == log.sessionLog
                     + [ChatEntry(entryId, now, System, (if task.done then "Undid: " else "Completed: ") + task.title)]))
  {
  }

  /** Un-completing is never refused; completing the active task clears it,
      and every other toggle leaves the active task as it was. */
  lemma TaskToggleActive(log: DayLog, taskId: string, entryId: string, now: int)
    requires Planner.FindTask(log.tasks, taskId).Some?
    ensures var task := Planner.FindTask(log.tasks, taskId).value;
      var (r, msg) := TaskToggleSpec(log, taskId, entryId, now);
      (task.done ==> msg == None && r.activeTaskId == log.activeTaskId
                     && (forall i :: 0 <= i < |log.tasks| && log.tasks[i].id == taskId ==> !r.tasks[i].done))
      && (msg == None ==>
            (r.activeTaskId == None <==> (log.activeTaskId == Some(taskId) && !task.done) || log.activeTaskId == None))
      && (msg == None && !(log.activeTaskId == Some(taskId) && !task.done) ==> r.activeTaskId == log.activeTaskId)
  {
  }

  /** Completing a task and then undoing it restores the queue when every
      task with that id was open. */
  lemma TaskToggleTwice(log: DayLog, taskId: string, e1: string, e2: string, t1: int, t2: int)
    requires Planner.FindTask(log.tasks, taskId).Some?
    requires forall i :: 0 <= i < |log.tasks| && log.tasks[i].id == taskId ==> !log.tasks[i].done
    requires !IsBlocked(log.tasks, Planner.FindTask(log.tasks, taskId).value)
    ensures var once := TaskToggleSpec(log, taskId, e1, t1).0;
      TaskToggleSpec(once, taskId, e2, t2).0.tasks == log.tasks
  {
    var task := Planner.FindTask(log.tasks, taskId).value;
    var once := TaskToggleSpec(log, taskId, e1, t1).0;
    assert once.tasks == SetDone(log.tasks, taskId, true);
    var k := Planner.FindIndex(log.tasks, taskId).value;
    Planner.FindIndexById(log.tasks, once.tasks, taskId);
    assert Planner.FindTask(once.tasks, taskId) == Some(once.tasks[k]);
    assert once.tasks[k].done;
    var twice := TaskToggleSpec(once, taskId, e2, t2).0;
    assert twice.tasks == SetDone(once.tasks, taskId, false);
    assert forall i :: 0 <= i < |log.tasks| ==> twice.tasks[i] == log.tasks[i];
  }

  /** Focusing refuses a blocked task (and ignores an unknown one); otherwise
      it makes the task active, whether or not it is done, and logs it. */
  lemma SetActiveTaskEffect(log: DayLog, taskId: string, entryId: string, now: int)
    ensures var (r, msg) := SetActiveTaskSpec(log, taskId, entryId, now);
      (Planner.FindTask(log.tasks, taskId).None? ==> r == log && msg == None)
      && (Planner.FindTask(log.tasks, taskId).Some? ==>
            var task := Planner.FindTask(log.tasks, taskId).value;
            (IsBlocked(log.tasks, task) ==> r == log && msg == Some(BlockedFocusMessage))
            && (!IsBlocked(log.tasks, task) ==>
                  msg == None && r.activeTaskId == Some(taskId) && r.tasks == log.tasks && SameSetting(log, r)
                  && r.isTimerRunning == log.isTimerRunning
                  && r.sessionLog == log.sessionLog + [ChatEntry(entryId, now, System, "Focusing on: " + task.title)]))
    ensures SetActiveTaskSpec(log, taskId, entryId, now).0.activeTaskId == Some(taskId) ==>
      log.activeTaskId == Some(taskId) || Planner.FindTask(log.tasks, taskId).Some?
  {
  }

  /** The timer button flips the running flag and logs which way; pressing
      it twice restores the flag. */
  lemma ToggleTimerEffect(log: DayLog, e1: string, e2: string, t1: int, t2: int)
    ensures var r := ToggleTimerSpec(log, e1, t1);
      r.isTimerRunning == !log.isTimerRunning && r.tasks == log.tasks && r.activeTaskId == log.activeTaskId
      && SameSetting(log, r)
      && r.sessionLog == log.sessionLog
         + [ChatEntry(e1, t1, System, if log.isTimerRunning then "Timer Paused" else "Timer Resumed")]
    ensures ToggleTimerSpec(ToggleTimerSpec(log, e1, t1), e2, t2).isTimerRunning == log.isTimerRunning
  {
  }

  /** The two blocked rules: whatever blocks on the rail blocks in the
      planner, and exactly the missing dependencies make them differ. */
  lemma BlockedRulesCompared(tasks: seq<Task>, t: Task)
    ensures IsBlocked(tasks, t) ==> Planner.IsBlocked(tasks, t)
    ensures Planner.IsBlocked(tasks, t) && !IsBlocked(tasks, t) ==>
      exists i :: 0 <= i < |t.dependencies| && Planner.FindTask(tasks, t.dependencies[i]).None?
    ensures (forall i :: 0 <= i < |t.dependencies| ==> Planner.FindTask(tasks, t.dependencies[i]).Some?) ==>
      (IsBlocked(tasks, t) <==> Planner.IsBlocked(tasks, t))
  {
    if IsBlocked(tasks, t) {
      var i :| 0 <= i < |t.dependencies| && BlocksHere(tasks, t.dependencies[i]);
      assert !(Planner.FindTask(tasks, t.dependencies[i]).Some? && Planner.FindTask(tasks, t.dependencies[i]).value.done);
    }
    if Planner.IsBlocked(tasks, t) && !IsBlocked(tasks, t) {
      var i :| 0 <= i < |t.dependencies|
        && !(Planner.FindTask(tasks, t.dependencies[i]).Some? && Planner.FindTask(tasks, t.dependencies[i]).value.done);
      assert !BlocksHere(tasks, t.dependencies[i]);
    }
  }

  /** A task waiting on an id that names no task: the planner marks it
      blocked, the rail lets it be completed. */
  lemma MissingDependencyDiverges()
    ensures var t := Planner.ManualTask("a", "write").(dependencies := ["gone"]);
      Planner.IsBlocked([t], t) && !IsBlocked([t], t)
  {
    var t := Planner.ManualTask("a", "write").(dependencies := ["gone"]);
    assert [t][1..] == [];
    assert Planner.FindTask([t], "gone") == None;
    assert t.dependencies[0] == "gone";
    assert !IsBlocked([t], t);
  }

  /** A completed countdown stops the timer and appends exactly one system
      entry, leaving the tasks, the active task and the settings alone. */
  lemma TimerCompleteEffect(log: DayLog, entryId: string, now: int)
    ensures var r := TimerCompleteSpec(log, entryId, now);
      !r.isTimerRunning && r.tasks == log.tasks && r.activeTaskId == log.activeTaskId
      && SameSetting(log, r)
      && r.sessionLog == log.sessionLog + [ChatEntry(entryId, now, System, TimerFinishedMessage)]
  {
  }

  /** A blank message is ignored and stays in the box; any other message is
      appended as the user's, as typed, and the box is cleared. */
  lemma SubmitChatEffect(log: DayLog, chatInput: string, entryId: string, now: int)
    ensures (forall i :: 0 <= i < |chatInput| ==> JsText.IsJsWhitespace(chatInput[i])) ==>
      SubmitChatSpec(log, chatInput, entryId, now) == (log, chatInput)
    ensures (exists i :: 0 <= i < |chatInput| && !JsText.IsJsWhitespace(chatInput[i])) ==>
      var (r, input) := SubmitChatSpec(log, chatInput, entryId, now);
      input == "" && r == log.(sessionLog := log.sessionLog + [ChatEntry(entryId, now, User, chatInput)])
  {
    JsText.TrimEmptyIffBlank(chatInput);
  }
}
