/** The application shell's handling of the day log: shallow-merge updates,
    score updates, ending a session, the score total, the emergency
    ("minimum viable") toggle, resetting the day and the migration applied to
    a record loaded from storage. */
module App {
  import opened Wrappers
  import opened Types
  import Session

  // ---------------------------------------------------------------
  // Shallow merge of a `Partial<DayLog>`
  // ---------------------------------------------------------------

  /** `Partial<DayLog>`: the keys an update supplies. */
  datatype LogPatch = LogPatch(
    date: Option<string>,
    mainObjective: Option<string>,
    shipFormat: Option<ShipFormat>,
    definitionOfDone: Option<string>,
    supportingTaskA: Option<string>,
    supportingTaskB: Option<string>,
    antiFailRule: Option<string>,
    distractionRule: Option<string>,
    tasks: Option<seq<Task>>,
    activeTaskId: Option<Option<string>>,
    sessionLog: Option<seq<ChatEntry>>,
    sessionCount: Option<int>,
    scores: Option<ScoreState>,
    microSteps: Option<seq<string>>,
    isMinimumViable: Option<bool>,
    currentPhase: Option<Phase>,
    currentFirstAction: Option<string>,
    timerSeconds: Option<int>,
    isTimerRunning: Option<bool>,
    tomorrowMainObjective: Option<string>,
    tomorrowFirstAction: Option<string>)

  const NoUpdates: LogPatch := LogPatch(None, None, None, None, None, None, None, None, None, None, None,
                                        None, None, None, None, None, None, None, None, None, None)

  /** `{ ...log, ...updates }`. */
  function Merge(log: DayLog, p: LogPatch): DayLog {
    DayLog(p.date.GetOr(log.date), p.mainObjective.GetOr(log.mainObjective), p.shipFormat.GetOr(log.shipFormat),
           p.definitionOfDone.GetOr(log.definitionOfDone), p.supportingTaskA.GetOr(log.supportingTaskA),
           p.supportingTaskB.GetOr(log.supportingTaskB), p.antiFailRule.GetOr(log.antiFailRule),
           p.distractionRule.GetOr(log.distractionRule), p.tasks.GetOr(log.tasks),
           p.activeTaskId.GetOr(log.activeTaskId), p.sessionLog.GetOr(log.sessionLog),
           p.sessionCount.GetOr(log.sessionCount), p.scores.GetOr(log.scores), p.microSteps.GetOr(log.microSteps),
           p.isMinimumViable.GetOr(log.isMinimumViable), p.currentPhase.GetOr(log.currentPhase),
           p.currentFirstAction.GetOr(log.currentFirstAction), p.timerSeconds.GetOr(log.timerSeconds),
           p.isTimerRunning.GetOr(log.isTimerRunning), p.tomorrowMainObjective.GetOr(log.tomorrowMainObjective),
           p.tomorrowFirstAction.GetOr(log.tomorrowFirstAction))
  }

  function Later<T>(a: Option<T>, b: Option<T>): Option<T> {
    if b.Some? then b else a
  }

  /** `{ ...p, ...q }`: the keys of either, `q`'s value winning. */
  function Overlay(p: LogPatch, q: LogPatch): LogPatch {
    LogPatch(Later(p.date, q.date), Later(p.mainObjective, q.mainObjective), Later(p.shipFormat, q.shipFormat),
             Later(p.definitionOfDone, q.definitionOfDone), Later(p.supportingTaskA, q.supportingTaskA),
             Later(p.supportingTaskB, q.supportingTaskB), Later(p.antiFailRule, q.antiFailRule),
             Later(p.distractionRule, q.distractionRule), Later(p.tasks, q.tasks),
             Later(p.activeTaskId, q.activeTaskId), Later(p.sessionLog, q.sessionLog),
             Later(p.sessionCount, q.sessionCount), Later(p.scores, q.scores), Later(p.microSteps, q.microSteps),
             Later(p.isMinimumViable, q.isMinimumViable), Later(p.currentPhase, q.currentPhase),
             Later(p.currentFirstAction, q.currentFirstAction), Later(p.timerSeconds, q.timerSeconds),
             Later(p.isTimerRunning, q.isTimerRunning), Later(p.tomorrowMainObjective, q.tomorrowMainObjective),
             Later(p.tomorrowFirstAction, q.tomorrowFirstAction))
  }

  /** Every key of a record, as an update: merging it yields that record. */
  function AllOf(log: DayLog): LogPatch {
    LogPatch(Some(log.date), Some(log.mainObjective), Some(log.shipFormat), Some(log.definitionOfDone),
             Some(log.supportingTaskA), Some(log.supportingTaskB), Some(log.antiFailRule),
             Some(log.distractionRule), Some(log.tasks), Some(log.activeTaskId), Some(log.sessionLog),
             Some(log.sessionCount), Some(log.scores), Some(log.microSteps), Some(log.isMinimumViable),
             Some(log.currentPhase), Some(log.currentFirstAction), Some(log.timerSeconds),
             Some(log.isTimerRunning), Some(log.tomorrowMainObjective), Some(log.tomorrowFirstAction))
  }

  // ---------------------------------------------------------------
  // Score updates
  // ---------------------------------------------------------------

  datatype DeepWorkKey = DeepWork1Key | DeepWork2Key

  datatype FlagKey = ShippedKey | MoveKey | FoodWaterKey | ShutdownKey | DistractionKey

  function DeepWork(s: ScoreState, k: DeepWorkKey): int {
    match k
    case DeepWork1Key => s.deepWork1
    case DeepWork2Key => s.deepWork2
  }

  function Flag(s: ScoreState, k: FlagKey): bool {
    match k
    case ShippedKey => s.shipped
    case MoveKey => s.move
    case FoodWaterKey => s.foodWater
    case ShutdownKey => s.shutdown
    case DistractionKey => s.distraction
  }

  /** `updateScore` on one of the two numeric keys. */
  function SetDeepWork(s: ScoreState, k: DeepWorkKey, v: int): ScoreState {
    match k
    case DeepWork1Key => s.(deepWork1 := v)
    case DeepWork2Key => s.(deepWork2 := v)
  }

  /** `updateScore` on one of the five yes/no keys. */
  function SetFlag(s: ScoreState, k: FlagKey, v: bool): ScoreState {
    match k
    case ShippedKey => s.(shipped := v)
    case MoveKey => s.(move := v)
    case FoodWaterKey => s.(foodWater := v)
    case ShutdownKey => s.(shutdown := v)
    case DistractionKey => s.(distraction := v)
  }

  // ---------------------------------------------------------------
  // Ending a session
  // ---------------------------------------------------------------

  const FocusEndedMessage: string := "Session Ended. Break (15m) ready to start."
  const BreakEndedMessage: string := "Break Over. Ready for next session."

  /** What `handleSessionEnd` leaves: a focus session scores two points for
      the first or second deep-work block and becomes a paused fifteen-minute
      break; any other phase returns to paused planning with ninety minutes.
      Either way one system entry, with the given id and time, is logged. */
  function SessionEndSpec(log: DayLog, entryId: string, now: int): DayLog {
    if log.currentPhase == Focus then
      var scores := if log.sessionCount == 0 then log.scores.(deepWork1 := 2)
                    else if log.sessionCount == 1 then log.scores.(deepWork2 := 2)
                    else log.scores;
      log.(scores := scores, currentPhase := Break, timerSeconds := 15 * 60, isTimerRunning := false,
           sessionCount := log.sessionCount + 1, activeTaskId := None,
           sessionLog := log.sessionLog + [ChatEntry(entryId, now, System, FocusEndedMessage)])
    else
      log.(currentPhase := Planning, isTimerRunning := false, timerSeconds := 90 * 60,
           sessionLog := log.sessionLog + [ChatEntry(entryId, now, System, BreakEndedMessage)])
  }

  /** The day's points. */
  function ScoreTotal(s: ScoreState): int {
    s.deepWork1 + s.deepWork2 + (if s.shipped then 2 else 0) + (if s.move then 1 else 0)
    + (if s.foodWater then 1 else 0) + (if s.shutdown then 1 else 0) + (if s.distraction then 1 else 0)
  }

  /** Both deep-work blocks hold one of the values the score sheet offers. */
  predicate DeepWorkInRange(s: ScoreState) {
    0 <= s.deepWork1 <= 2 && 0 <= s.deepWork2 <= 2
  }

  /** `toggleMinViable`: entering emergency mode plans a twenty-minute
      session with a stopped timer and no objective; leaving it only puts
      the timer back to ninety minutes. */
  function ToggleMinViableSpec(log: DayLog): DayLog {
    if !log.isMinimumViable then
      log.(isMinimumViable := true, currentPhase := Planning, timerSeconds := 20 * 60,
           isTimerRunning := false, mainObjective := "")
    else
      log.(isMinimumViable := false, timerSeconds := 90 * 60)
  }

  // ---------------------------------------------------------------
  // The load-time migration
  // ---------------------------------------------------------------

  /** A stored task, whose dependency list older versions did not write. */
  datatype StoredTask = StoredTask(
    id: string,
    title: string,
    done: bool,
    linearId: Option<string>,
    linearIdentifier: Option<string>,
    dependencies: Option<seq<string>>,
    assignee: Option<Assignee>,
    team: Option<Team>,
    project: Option<Project>)

  /** A stored score sheet, any key of which may be missing. */
  datatype StoredScores = StoredScores(
    deepWork1: Option<int>,
    deepWork2: Option<int>,
    shipped: Option<bool>,
    move: Option<bool>,
    foodWater: Option<bool>,
    shutdown: Option<bool>,
    distraction: Option<bool>)

  /** The parsed record: the keys it holds, with the three keys the migration
      rebuilds in their own form (the values `fields` gives for those three
      are overwritten and play no part). */
  datatype StoredLog = StoredLog(
    fields: LogPatch,
    tasks: Option<seq<StoredTask>>,
    scores: Option<StoredScores>,
    sessionLog: Option<seq<ChatEntry>>)

  /** `{ ...t, dependencies: t.dependencies || [] }`. */
  function MigrateTask(t: StoredTask): Task {
    Task(t.id, t.title, t.done, t.linearId, t.linearIdentifier, t.dependencies.GetOr([]),
         t.assignee, t.team, t.project)
  }

  function MigrateTasks(ts: seq<StoredTask>): (r: seq<Task>)
    ensures |r| == |ts|
    ensures forall i :: 0 <= i < |ts| ==> r[i] == MigrateTask(ts[i])
  {
    seq(|ts|, i requires 0 <= i < |ts| => MigrateTask(ts[i]))
  }

  /** `{ ...INITIAL_SCORE, ...parsed.scores }`. */
  function MigrateScores(s: Option<StoredScores>): ScoreState {
    match s
    case None => InitialScore
    case Some(p) =>
      ScoreState(p.deepWork1.GetOr(InitialScore.deepWork1), p.deepWork2.GetOr(InitialScore.deepWork2),
                 p.shipped.GetOr(InitialScore.shipped), p.move.GetOr(InitialScore.move),
                 p.foodWater.GetOr(InitialScore.foodWater), p.shutdown.GetOr(InitialScore.shutdown),
                 p.distraction.GetOr(InitialScore.distraction))
  }

  /** The migrated record: the initial record under the parsed keys, with the
      scores, tasks and session log rebuilt. `today` is the date the initial
      record was made with. */
  function Migrate(today: string, raw: StoredLog): DayLog {
    Merge(InitialDayLog(today), raw.fields).(
      scores := MigrateScores(raw.scores),
      tasks := MigrateTasks(raw.tasks.GetOr([])),
      sessionLog := raw.sessionLog.GetOr([]))
  }

  /** What saving `log` writes, read back. */
  function Saved(log: DayLog): StoredLog {
    var s := log.scores;
    StoredLog(AllOf(log),
              Some(seq(|log.tasks|, i requires 0 <= i < |log.tasks| =>
                var t := log.tasks[i];
                StoredTask(t.id, t.title, t.done, t.linearId, t.linearIdentifier, Some(t.dependencies),
                           t.assignee, t.team, t.project))),
              Some(StoredScores(Some(s.deepWork1), Some(s.deepWork2), Some(s.shipped), Some(s.move),
                                Some(s.foodWater), Some(s.shutdown), Some(s.distraction))),
              Some(log.sessionLog))
  }

  // ---------------------------------------------------------------
  // Properties
  // ---------------------------------------------------------------

  /** The merge changes exactly the keys supplied; two merges in a row are
      one merge of the overlaid updates; merging nothing changes nothing,
      and merging every key of a record yields it. */
  lemma MergeLaws(log: DayLog, p: LogPatch, q: LogPatch, other: DayLog)
    ensures Merge(log, NoUpdates) == log
    ensures Merge(Merge(log, p), q) == Merge(log, Overlay(p, q))
    ensures Merge(log, AllOf(other)) == other
    ensures p.tasks.None? ==> Merge(log, p).tasks == log.tasks
    ensures p.sessionLog.None? ==> Merge(log, p).sessionLog == log.sessionLog
    ensures p.scores.None? ==> Merge(log, p).scores == log.scores
    ensures p.activeTaskId.None? ==> Merge(log, p).activeTaskId == log.activeTaskId
    ensures p.tasks.Some? ==> Merge(log, p).tasks == p.tasks.value
    ensures p.activeTaskId.Some? ==> Merge(log, p).activeTaskId == p.activeTaskId.value
  {
  }

  /** `updateScore` on a deep-work block changes that block and no other
      key; writing back the value read changes nothing. */
  lemma UpdateDeepWorkOnlyKey(s: ScoreState, k: DeepWorkKey, j: DeepWorkKey, g: FlagKey, v: int)
    ensures DeepWork(SetDeepWork(s, k, v), k) == v
    ensures j != k ==> DeepWork(SetDeepWork(s, k, v), j) == DeepWork(s, j)
    ensures Flag(SetDeepWork(s, k, v), g) == Flag(s, g)
    ensures SetDeepWork(s, k, DeepWork(s, k)) == s
  {
  }

  /** `updateScore` on a yes/no item changes that item and no other key;
      writing back the value read changes nothing. */
  lemma UpdateFlagOnlyKey(s: ScoreState, f: FlagKey, g: FlagKey, j: DeepWorkKey, b: bool)
    ensures Flag(SetFlag(s, f, b), f) == b
    ensures g != f ==> Flag(SetFlag(s, f, b), g) == Flag(s, g)
    ensures DeepWork(SetFlag(s, f, b), j) == DeepWork(s, j)
    ensures SetFlag(s, f, Flag(s, f)) == s
  {
    match f {
      case ShippedKey =>
      case MoveKey =>
      case FoodWaterKey =>
      case ShutdownKey =>
      case DistractionKey =>
    }
  }

  /** Ending a focus session: a paused fifteen-minute break, counted, with
      no active task; the first two sessions score two points for their
      block, later ones score nothing. */
  lemma FocusEnds(log: DayLog, entryId: string, now: int)
    requires log.currentPhase == Focus
    ensures var r := SessionEndSpec(log, entryId, now);
      r.currentPhase == Break && r.timerSeconds == 900 && !r.isTimerRunning
      && r.sessionCount == log.sessionCount + 1 && r.activeTaskId == None
      && (log.sessionCount == 0 ==> r.scores == log.scores.(deepWork1 := 2))
      && (log.sessionCount == 1 ==> r.scores == log.scores.(deepWork2 := 2))
      && (log.sessionCount != 0 && log.sessionCount != 1 ==> r.scores == log.scores)
      && r.tasks == log.tasks && r.isMinimumViable == log.isMinimumViable
  {
  }

  /** Ending any other phase returns to paused planning with ninety minutes,
      whatever the emergency mode, and scores and counts nothing; the active
      task is kept. */
  lemma OtherPhaseEnds(log: DayLog, entryId: string, now: int)
    requires log.currentPhase != Focus
    ensures var r := SessionEndSpec(log, entryId, now);
      r.currentPhase == Planning && r.timerSeconds == 5400 && !r.isTimerRunning
      && r.sessionCount == log.sessionCount && r.scores == log.scores
      && r.activeTaskId == log.activeTaskId && r.tasks == log.tasks
  {
  }

  /** Exactly one system entry is logged, after the earlier ones. */
  lemma SessionEndLogs(log: DayLog, entryId: string, now: int)
    ensures var r := SessionEndSpec(log, entryId, now);
      |r.sessionLog| == |log.sessionLog| + 1 && r.sessionLog[..|log.sessionLog|] == log.sessionLog
      && r.sessionLog[|log.sessionLog|].sender == System && r.sessionLog[|log.sessionLog|].id == entryId
      && r.sessionLog[|log.sessionLog|].timestamp == now
      && r.sessionLog[|log.sessionLog|].message
         == (if log.currentPhase == Focus then FocusEndedMessage else BreakEndedMessage)
  {
  }

  /** Session ends keep both deep-work blocks on the score sheet's scale, so
      the total stays within its bounds. */
  lemma SessionEndKeepsScale(log: DayLog, entryId: string, now: int)
    requires DeepWorkInRange(log.scores)
    ensures DeepWorkInRange(SessionEndSpec(log, entryId, now).scores)
    ensures ScoreTotal(log.scores) <= ScoreTotal(SessionEndSpec(log, entryId, now).scores)
  {
  }

  /** With both blocks on their 0-to-2 scale the total lies between 0 and
      10, reaching 10 exactly when every item is full; the initial sheet is
      worth nothing. */
  lemma ScoreBounds(s: ScoreState)
    ensures DeepWorkInRange(s) ==> 0 <= ScoreTotal(s) <= 10
    ensures DeepWorkInRange(s) ==>
      (ScoreTotal(s) == 10 <==> s == ScoreState(2, 2, true, true, true, true, true))
    ensures ScoreTotal(InitialScore) == 0
  {
  }

  /** The two end-of-session rules agree when a focus session ends and part
      when a break ends in emergency mode: the shell restores ninety minutes
      where the session reducer restores twenty. */
  lemma EndRulesCompared(log: DayLog, entryId: string, now: int)
    ensures log.currentPhase == Focus ==>
      var r := SessionEndSpec(log, entryId, now);
      var q := Session.Reduce(Session.SessionState(Session.Focus, log.timerSeconds, log.isTimerRunning,
                                                   log.sessionCount, log.activeTaskId, log.isMinimumViable),
                              Session.EndSession);
      q.phase == Session.Break && r.currentPhase == Break && q.timerSeconds == r.timerSeconds
      && q.isTimerRunning == r.isTimerRunning && q.sessionCount == r.sessionCount && q.activeTaskId == r.activeTaskId
    ensures log.currentPhase == Break && log.isMinimumViable ==>
      var r := SessionEndSpec(log, entryId, now);
      var q := Session.Reduce(Session.SessionState(Session.Break, log.timerSeconds, log.isTimerRunning,
                                                   log.sessionCount, log.activeTaskId, true),
                              Session.EndSession);
      r.timerSeconds == 5400 && q.timerSeconds == 1200
  {
  }

  /** Entering emergency mode plans twenty minutes on a stopped timer with
      no objective; leaving it sets only the timer, to ninety minutes; two
      toggles restore the flag. */
  lemma ToggleMinViableEffect(log: DayLog)
    ensures var r := ToggleMinViableSpec(log);
      r.isMinimumViable == !log.isMinimumViable
      && (!log.isMinimumViable ==>
            r.currentPhase == Planning && r.timerSeconds == 1200 && !r.isTimerRunning && r.mainObjective == ""
            && r.tasks == log.tasks && r.scores == log.scores)
      && (log.isMinimumViable ==> r == log.(isMinimumViable := false, timerSeconds := 5400))
    ensures ToggleMinViableSpec(ToggleMinViableSpec(log)).isMinimumViable == log.isMinimumViable
  {
  }

  /** A record that was saved whole migrates back to itself; a record with
      no keys migrates to the initial record; tasks without a dependency
      list get an empty one, and missing score keys take their initial
      values. */
  lemma MigrationLaws(today: string, log: DayLog, raw: StoredLog)
    ensures Migrate(today, Saved(log)) == log
    ensures Migrate(today, StoredLog(NoUpdates, None, None, None)) == InitialDayLog(today)
    ensures var m := Migrate(today, raw);
      |m.tasks| == (if raw.tasks.Some? then |raw.tasks.value| else 0)
      && (forall i :: 0 <= i < |m.tasks| ==>
            m.tasks[i].id == raw.tasks.value[i].id
            && m.tasks[i].dependencies == raw.tasks.value[i].dependencies.GetOr([]))
    ensures raw.scores.Some? && raw.scores.value.deepWork2.None? ==>
      Migrate(today, raw).scores.deepWork2 == 0
  {
    var m := Migrate(today, Saved(log));
    assert m.tasks == log.tasks;
  }

  // ---------------------------------------------------------------
  // The shell's state, updated through `setLog`
  // ---------------------------------------------------------------

  class AppStore {
    var log: DayLog

    constructor (today: string)
      ensures log == InitialDayLog(today)
    {
      log := InitialDayLog(today);
    }

    /** `updateLog`. */
    method UpdateLog(updates: LogPatch)
      modifies this
      ensures log == Merge(old(log), updates)
    {
      log := Merge(log, updates);
    }

    method UpdateDeepWork(k: DeepWorkKey, v: int)
      modifies this
      ensures log == old(log).(scores := SetDeepWork(old(log).scores, k, v))
    {
      log := log.(scores := SetDeepWork(log.scores, k, v));
    }

    method UpdateFlag(k: FlagKey, v: bool)
      modifies this
      ensures log == old(log).(scores := SetFlag(old(log).scores, k, v))
    {
      log := log.(scores := SetFlag(log.scores, k, v));
    }

    /** `handleSessionEnd`, with `crypto.randomUUID()` and `Date.now()` as
        parameters. */
    method HandleSessionEnd(entryId: string, now: int)
      modifies this
      ensures log == SessionEndSpec(old(log), entryId, now)
    {
      var prev := log;
      var deepWork1: Option<int> := None;
      var deepWork2: Option<int> := None;
      var points := if prev.currentPhase == Focus then 2 else 0;
      if prev.currentPhase == Focus {
        if prev.sessionCount == 0 {
          deepWork1 := Some(points);
        } else if prev.sessionCount == 1 {
          deepWork2 := Some(points);
        }
      }
      var updates := NoUpdates;
      var message := "";
      if prev.currentPhase == Focus {
        updates := NoUpdates.(currentPhase := Some(Break), timerSeconds := Some(15 * 60),
                              isTimerRunning := Some(false), sessionCount := Some(prev.sessionCount + 1),
                              activeTaskId := Some(None));
        message := FocusEndedMessage;
      } else {
        updates := NoUpdates.(currentPhase := Some(Planning), isTimerRunning := Some(false),
                              timerSeconds := Some(90 * 60));
        message := BreakEndedMessage;
      }
      var entry := ChatEntry(entryId, now, System, message);
      var scores := prev.scores.(deepWork1 := deepWork1.GetOr(prev.scores.deepWork1),
                                 deepWork2 := deepWork2.GetOr(prev.scores.deepWork2));
      log := Merge(prev.(scores := scores), updates).(sessionLog := prev.sessionLog + [entry]);
    }

    /** `calculateScore`, adding the items one by one. */
    method CalculateScore() returns (total: int)
      ensures total == ScoreTotal(log.scores)
    {
      var s := log.scores;
      total := 0;
      total := total + s.deepWork1;
      total := total + s.deepWork2;
      if s.shipped { total := total + 2; }
      if s.move { total := total + 1; }
      if s.foodWater { total := total + 1; }
      if s.shutdown { total := total + 1; }
      if s.distraction { total := total + 1; }
    }

    /** `confirmResetDay`, with today's date as a parameter. */
    method ConfirmResetDay(today: string)
      modifies this
      ensures log == InitialDayLog(today)
    {
      log := InitialDayLog(today).(date := today);
    }

    method ToggleMinViable()
      modifies this
      ensures log == ToggleMinViableSpec(old(log))
    {
      var newState := !log.isMinimumViable;
      var updates := NoUpdates.(isMinimumViable := Some(newState));
      if newState {
        updates := updates.(currentPhase := Some(Planning));
        updates := updates.(timerSeconds := Some(20 * 60));
        updates := updates.(isTimerRunning := Some(false));
        updates := updates.(mainObjective := Some(""));
      } else {
        updates := updates.(timerSeconds := Some(90 * 60));
      }
      UpdateLog(updates);
    }
  }
}
