/** The application's shared records: the day log the planner, the now rail
    and the scoreboard work on, the task and issue records, and the initial
    values a fresh day starts from. */
module Types {
  import opened Wrappers

  /** The nine phases a day log can record. */
  datatype Phase = Planning | Focus | Break | Admin | Shutdown | Completed | DeepWork1 | DeepWork2 | Build

  /** Every phase, in declaration order. */
  const AllPhases: seq<Phase> := [Planning, Focus, Break, Admin, Shutdown, Completed, DeepWork1, DeepWork2, Build]

  /** The string a phase is stored as. */
  function PhaseName(p: Phase): string {
    match p
    case Planning => "PLANNING"
    case Focus => "FOCUS"
    case Break => "BREAK"
    case Admin => "ADMIN"
    case Shutdown => "SHUTDOWN"
    case Completed => "COMPLETED"
    case DeepWork1 => "DEEP_WORK_1"
    case DeepWork2 => "DEEP_WORK_2"
    case Build => "BUILD"
  }

  datatype ShipFormat = Code | Writing | Design | Strategy | Personal

  /** The day's score sheet: two deep-work blocks worth 0, 1 or 2 points and
      five yes/no items. */
  datatype ScoreState = ScoreState(
    deepWork1: int,
    deepWork2: int,
    shipped: bool,
    move: bool,
    foodWater: bool,
    shutdown: bool,
    distraction: bool)

  datatype Assignee = Assignee(id: string, name: string, avatarUrl: Option<string>)
  datatype Team = Team(id: string, name: string, key: string)
  datatype Project = Project(id: string, name: string, icon: Option<string>, color: Option<string>)
  datatype IssueState = IssueState(name: string, stateType: string)

  /** An issue as the tracker's API returns it. */
  datatype Issue = Issue(
    id: string,
    identifier: string,
    title: string,
    description: Option<string>,
    url: string,
    state: Option<IssueState>,
    assignee: Option<Assignee>,
    team: Option<Team>,
    project: Option<Project>)

  /** A queued task; `dependencies` are the ids of the tasks that block it. */
  datatype Task = Task(
    id: string,
    title: string,
    done: bool,
    linearId: Option<string>,
    linearIdentifier: Option<string>,
    dependencies: seq<string>,
    assignee: Option<Assignee>,
    team: Option<Team>,
    project: Option<Project>)

  datatype Sender = System | User | Ai

  datatype ChatEntry = ChatEntry(id: string, timestamp: int, sender: Sender, message: string)

  /** The persisted record of one day. */
  datatype DayLog = DayLog(
    date: string,
    mainObjective: string,
    shipFormat: ShipFormat,
    definitionOfDone: string,
    supportingTaskA: string,
    supportingTaskB: string,
    antiFailRule: string,
    distractionRule: string,
    tasks: seq<Task>,
    activeTaskId: Option<string>,
    sessionLog: seq<ChatEntry>,
    sessionCount: int,
    scores: ScoreState,
    microSteps: seq<string>,
    isMinimumViable: bool,
    currentPhase: Phase,
    currentFirstAction: string,
    timerSeconds: int,
    isTimerRunning: bool,
    tomorrowMainObjective: string,
    tomorrowFirstAction: string)

  const InitialScore: ScoreState := ScoreState(0, 0, false, false, false, false, false)

  const AntiFailRule: string := "If I miss deep work: I must do a 20m salvage sprint before bed."
  const DistractionRule: string := "Phone outside the room during Deep Work."

  /** The log of a fresh day; `date` is today's ISO date, which the module
      computes when it is loaded. */
  function InitialDayLog(date: string): DayLog {
    DayLog(date, "", Code, "", "", "", AntiFailRule, DistractionRule,
           [], None, [], 0, InitialScore, ["", "", ""], false,
           Planning, "", 90 * 60, false, "", "")
  }

  /** The connection states the application shows for the device. */
  datatype DeviceConnectionState = DeviceDisconnected | DeviceConnecting | DeviceConnected | DeviceError

  /** The application's view of the device. */
  datatype AppDeviceState = AppDeviceState(
    connectionState: DeviceConnectionState,
    isLocked: bool,
    hasPhone: bool,
    batteryLevel: int,
    dialPosition: int,
    lastError: Option<string>)

  const InitialDeviceState: AppDeviceState := AppDeviceState(DeviceDisconnected, false, false, 100, 0, None)

  // ---------------------------------------------------------------
  // Properties
  // ---------------------------------------------------------------

  /** There are exactly nine phases, listed once each, with distinct names. */
  lemma PhasesListed(p: Phase, q: Phase)
    ensures |AllPhases| == 9 && p in AllPhases
    ensures forall i, j :: 0 <= i < j < |AllPhases| ==> AllPhases[i] != AllPhases[j]
    ensures PhaseName(p) == PhaseName(q) ==> p == q
  {
  }

  /** A fresh day plans, with ninety minutes on a stopped timer, no session
      yet, no active task, no tasks, no scores and three empty micro-steps. */
  lemma InitialDay(date: string)
    ensures var d := InitialDayLog(date);
      d.currentPhase == Planning && d.timerSeconds == 5400 && !d.isTimerRunning
      && d.sessionCount == 0 && d.activeTaskId == None && d.tasks == [] && d.sessionLog == []
      && d.microSteps == ["", "", ""] && d.scores == InitialScore && !d.isMinimumViable
      && d.date == date
    ensures InitialScore.deepWork1 == 0 && InitialScore.deepWork2 == 0
      && !InitialScore.shipped && !InitialScore.move && !InitialScore.foodWater
      && !InitialScore.shutdown && !InitialScore.distraction
  {
  }

  /** The device starts disconnected, unlocked and without a phone, with the
      battery shown full. */
  lemma InitialDevice()
    ensures InitialDeviceState.connectionState == DeviceDisconnected
    ensures !InitialDeviceState.isLocked && !InitialDeviceState.hasPhone
    ensures InitialDeviceState.batteryLevel == 100 && InitialDeviceState.dialPosition == 0
  {
  }
}
