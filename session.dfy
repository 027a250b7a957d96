/** The session state machine: four phases, a countdown, a session counter,
    the task being focused on and the emergency ("minimum viable") flag,
    changed only by the pure reducer `Reduce`. */
module Session {
  import opened Wrappers
  import JsText

  datatype SessionPhase = Planning | Focus | Break | Shutdown

  /** Durations in seconds. */
  datatype SessionConfig = SessionConfig(focusDuration: int, breakDuration: int, emergencyDuration: int)

  const DefaultConfig: SessionConfig := SessionConfig(90 * 60, 15 * 60, 20 * 60)

  /** `Partial<SessionConfig>`: the keys an override supplies. */
  datatype ConfigOverride = ConfigOverride(focusDuration: Option<int>, breakDuration: Option<int>, emergencyDuration: Option<int>)

  datatype SessionState = SessionState(
    phase: SessionPhase,
    timerSeconds: int,
    isTimerRunning: bool,
    sessionCount: int,
    activeTaskId: Option<string>,
    isMinimumViable: bool)

  const InitialSessionState: SessionState := SessionState(Planning, DefaultConfig.focusDuration, false, 0, None, false)

  datatype SessionAction =
    | StartFocus(taskId: string, config: Option<ConfigOverride>)
    | PauseTimer
    | ResumeTimer
    | EndSession
    | Tick
    | SetTask(task: Option<string>)
    | ToggleEmergencyMode(config: Option<ConfigOverride>)
    | StartBreak(config: Option<ConfigOverride>)
    | SkipBreak
    | StartShutdown
    | CompleteShutdown
    | CancelShutdown
    | ResetDay(config: Option<ConfigOverride>)

  /** The phase changes the workflow allows. */
  predicate IsValidTransition(from: SessionPhase, to: SessionPhase) {
    match from
    case Planning => to == Focus || to == Shutdown
    case Focus => to == Break || to == Planning
    case Break => to == Planning
    case Shutdown => to == Planning
  }

  /** The defaults, with every key the override supplies replaced. */
  function GetEffectiveConfig(o: Option<ConfigOverride>): (c: SessionConfig)
    ensures o.None? ==> c == DefaultConfig
    ensures o.Some? ==>
      c.focusDuration == o.value.focusDuration.GetOr(DefaultConfig.focusDuration)
      && c.breakDuration == o.value.breakDuration.GetOr(DefaultConfig.breakDuration)
      && c.emergencyDuration == o.value.emergencyDuration.GetOr(DefaultConfig.emergencyDuration)
  {
    match o
    case None => DefaultConfig
    case Some(v) =>
      SessionConfig(v.focusDuration.GetOr(DefaultConfig.focusDuration),
                    v.breakDuration.GetOr(DefaultConfig.breakDuration),
                    v.emergencyDuration.GetOr(DefaultConfig.emergencyDuration))
  }

  /** The length of a focus session in the given mode. */
  function SessionLength(config: SessionConfig, isMinimumViable: bool): int {
    if isMinimumViable then config.emergencyDuration else config.focusDuration
  }

  predicate IsTimerPhase(phase: SessionPhase) {
    phase == Focus || phase == Break
  }

  /** The timer length of a phase; planning and shutdown have none. */
  function GetPhaseDuration(phase: SessionPhase, isMinimumViable: bool, config: SessionConfig): int {
    match phase
    case Focus => SessionLength(config, isMinimumViable)
    case Break => config.breakDuration
    case Planning => 0
    case Shutdown => 0
  }

  /** `sessionReducer`. An action that is not allowed in the current phase
      returns the state unchanged. */
  function Reduce(s: SessionState, a: SessionAction): SessionState {
    match a
    case StartFocus(taskId, o) =>
      if !IsValidTransition(s.phase, Focus) then s
      else s.(phase := Focus, timerSeconds := SessionLength(GetEffectiveConfig(o), s.isMinimumViable),
               isTimerRunning := true, activeTaskId := Some(taskId))
    case PauseTimer =>
      if s.phase != Focus && s.phase != Break then s else s.(isTimerRunning := false)
    case ResumeTimer =>
      if s.phase != Focus && s.phase != Break then s
      else if s.timerSeconds <= 0 then s
      else s.(isTimerRunning := true)
    case EndSession =>
      if s.phase == Focus then
        s.(phase := Break, timerSeconds := DefaultConfig.breakDuration, isTimerRunning := false,
           sessionCount := s.sessionCount + 1, activeTaskId := None)
      else if s.phase == Break then
        s.(phase := Planning, timerSeconds := SessionLength(DefaultConfig, s.isMinimumViable), isTimerRunning := false)
      else s
    case Tick =>
      if !s.isTimerRunning || s.timerSeconds <= 0 then s
      else
        var newSeconds := s.timerSeconds - 1;
        if newSeconds <= 0 then s.(timerSeconds := 0, isTimerRunning := false)
        else s.(timerSeconds := newSeconds)
    case SetTask(task) =>
      if s.phase != Planning && s.phase != Focus then s else s.(activeTaskId := task)
    case ToggleEmergencyMode(o) =>
      var flag := !s.isMinimumViable;
      s.(isMinimumViable := flag, phase := Planning, timerSeconds := SessionLength(GetEffectiveConfig(o), flag),
         isTimerRunning := false, activeTaskId := None)
    case StartBreak(o) =>
      if !IsValidTransition(s.phase, Break) then s
      else s.(phase := Break, timerSeconds := GetEffectiveConfig(o).breakDuration, isTimerRunning := true,
              activeTaskId := None, sessionCount := s.sessionCount + 1)
    case SkipBreak =>
      if s.phase != Break then s
      else s.(phase := Planning, timerSeconds := SessionLength(DefaultConfig, s.isMinimumViable), isTimerRunning := false)
    case StartShutdown =>
      if !IsValidTransition(s.phase, Shutdown) then s
      else s.(phase := Shutdown, isTimerRunning := false, activeTaskId := None)
    case CompleteShutdown => LeaveShutdown(s)
    case CancelShutdown => LeaveShutdown(s)
    case ResetDay(o) =>
      InitialSessionState.(timerSeconds := GetEffectiveConfig(o).focusDuration)
  }

  /** The shared branch of COMPLETE_SHUTDOWN and CANCEL_SHUTDOWN. */
  function LeaveShutdown(s: SessionState): SessionState {
    if s.phase != Shutdown then s
    else s.(phase := Planning, timerSeconds := SessionLength(DefaultConfig, s.isMinimumViable), isTimerRunning := false)
  }

  /** `formatTime`: "H:MM:SS" from one hour on, "MM:SS" below, with
      JavaScript's `%` and `Math.floor`. */
  function FormatTime(seconds: int): string {
    // Dafny's `/` by a positive divisor already is `Math.floor` of the quotient
    ClockFace(seconds / 3600, JsText.JsRem(seconds, 3600) / 60, JsText.JsRem(seconds, 60))
  }

  /** The fields joined as `formatTime` joins them. */
  function ClockFace(hours: int, minutes: int, secs: int): string {
    if hours > 0 then
      JsText.IntToString(hours) + ":" + JsText.PadStart2(JsText.IntToString(minutes)) + ":"
      + JsText.PadStart2(JsText.IntToString(secs))
    else JsText.PadStart2(JsText.IntToString(minutes)) + ":" + JsText.PadStart2(JsText.IntToString(secs))
  }

  /** `getPhaseLabel`. */
  function GetPhaseLabel(phase: SessionPhase, isMinimumViable: bool): string {
    match phase
    case Planning => if isMinimumViable then "Emergency Planning" else "Planning"
    case Focus => if isMinimumViable then "Emergency Sprint" else "Deep Work"
    case Break => "Break"
    case Shutdown => "Day Shutdown"
  }

  // ---------------------------------------------------------------
  // Properties
  // ---------------------------------------------------------------

  /** Every step that changes the phase follows the transition table. */
  lemma PhaseChangesFollowTable(s: SessionState, a: SessionAction)
    ensures Reduce(s, a).phase != s.phase ==> IsValidTransition(s.phase, Reduce(s, a).phase)
  {
  }

  /** The table allows exactly six transitions, none of them a self-loop. */
  lemma TransitionTable(from: SessionPhase, to: SessionPhase)
    ensures IsValidTransition(from, to) ==> from != to
    ensures IsValidTransition(from, Focus) <==> from == Planning
    ensures IsValidTransition(from, Break) <==> from == Focus
    ensures IsValidTransition(from, Shutdown) <==> from == Planning
  {
  }

  /** START_FOCUS acts only from planning, and then starts the session
      length of the current mode for the given task. */
  lemma StartFocusEffect(s: SessionState, taskId: string, o: Option<ConfigOverride>)
    ensures var r := Reduce(s, StartFocus(taskId, o));
      (s.phase != Planning ==> r == s)
      && (s.phase == Planning ==>
            r.phase == Focus && r.isTimerRunning && r.activeTaskId == Some(taskId)
            && r.timerSeconds == GetPhaseDuration(Focus, s.isMinimumViable, GetEffectiveConfig(o))
            && r.sessionCount == s.sessionCount && r.isMinimumViable == s.isMinimumViable)
  {
  }

  /** END_SESSION without overrides: a focus session becomes a paused
      15-minute break and is counted; a break becomes paused planning whose
      timer is reset to the session length; any other phase stays as it is. */
  lemma EndSessionEffect(s: SessionState)
    ensures var r := Reduce(s, EndSession);
      (s.phase == Focus ==>
         r == s.(phase := Break, timerSeconds := 900, isTimerRunning := false,
                 sessionCount := s.sessionCount + 1, activeTaskId := None))
      && (s.phase == Break ==>
         r == s.(phase := Planning, timerSeconds := if s.isMinimumViable then 1200 else 5400,
                 isTimerRunning := false))
      && (s.phase != Focus && s.phase != Break ==> r == s)
  {
  }

  /** TICK counts a running, positive timer down by one second, stopping it
      on reaching zero, and otherwise does nothing; it never changes the
      phase and never leaves a negative count behind a positive one. */
  lemma TickEffect(s: SessionState)
    ensures var r := Reduce(s, Tick);
      r.phase == s.phase && r.sessionCount == s.sessionCount && r.activeTaskId == s.activeTaskId
      && (!(s.isTimerRunning && s.timerSeconds > 0) ==> r == s)
      && (s.isTimerRunning && s.timerSeconds > 0 ==>
            r.timerSeconds == s.timerSeconds - 1 && r.timerSeconds >= 0
            && (r.isTimerRunning <==> r.timerSeconds > 0))
  {
  }

  /** A running session reaches zero, stopped, after exactly its remaining
      number of ticks. */
  lemma {:induction false} TicksRunDown(s: SessionState, n: nat)
    requires s.isTimerRunning && s.timerSeconds == n && n > 0
    ensures var r := Ticks(s, n);
      r == s.(timerSeconds := 0, isTimerRunning := false)
    decreases n
  {
    if n > 1 {
      TicksRunDown(s.(timerSeconds := n - 1), n - 1);
    }
  }

  /** `n` TICK actions in a row. */
  function Ticks(s: SessionState, n: nat): SessionState
    decreases n
  {
    if n == 0 then s else Ticks(Reduce(s, Tick), n - 1)
  }

  /** The guards of the timer and phase actions. */
  lemma Guards(s: SessionState)
    ensures !IsTimerPhase(s.phase) ==> Reduce(s, PauseTimer) == s && Reduce(s, ResumeTimer) == s
    ensures s.timerSeconds <= 0 ==> Reduce(s, ResumeTimer) == s
    ensures IsTimerPhase(s.phase) ==> !Reduce(s, PauseTimer).isTimerRunning
    ensures IsTimerPhase(s.phase) && s.timerSeconds > 0 ==> Reduce(s, ResumeTimer).isTimerRunning
    ensures s.phase != Break ==> Reduce(s, SkipBreak) == s
    ensures s.phase != Planning ==> Reduce(s, StartShutdown) == s
    ensures s.phase != Shutdown ==> Reduce(s, CompleteShutdown) == s
    ensures Reduce(s, CompleteShutdown) == Reduce(s, CancelShutdown)
  {
  }

  /** No task is active during a break or the shutdown. */
  predicate TaskRule(s: SessionState) {
    (s.phase == Break || s.phase == Shutdown) ==> s.activeTaskId.None?
  }

  lemma PreservesTaskRule(s: SessionState, a: SessionAction)
    requires TaskRule(s)
    ensures TaskRule(Reduce(s, a))
  {
  }

  /** An override that supplies no negative duration. */
  predicate NonNegativeOverride(o: Option<ConfigOverride>) {
    o.Some? ==>
      o.value.focusDuration.GetOr(0) >= 0 && o.value.breakDuration.GetOr(0) >= 0
      && o.value.emergencyDuration.GetOr(0) >= 0
  }

  predicate NonNegativeAction(a: SessionAction) {
    match a
    case StartFocus(_, o) => NonNegativeOverride(o)
    case ToggleEmergencyMode(o) => NonNegativeOverride(o)
    case StartBreak(o) => NonNegativeOverride(o)
    case ResetDay(o) => NonNegativeOverride(o)
    case _ => true
  }

  /** With non-negative durations, the timer never goes negative. */
  lemma TimerStaysNonNegative(s: SessionState, a: SessionAction)
    requires s.timerSeconds >= 0 && NonNegativeAction(a)
    ensures Reduce(s, a).timerSeconds >= 0
  {
  }

  /** TOGGLE_EMERGENCY_MODE flips the flag and lands in stopped planning with
      no task and the session length of the new mode; toggling twice
      restores the flag. */
  lemma ToggleEmergencyEffect(s: SessionState, o: Option<ConfigOverride>, o2: Option<ConfigOverride>)
    ensures var r := Reduce(s, ToggleEmergencyMode(o));
      r.isMinimumViable == !s.isMinimumViable && r.phase == Planning && !r.isTimerRunning
      && r.activeTaskId.None? && r.sessionCount == s.sessionCount
      && r.timerSeconds == (if r.isMinimumViable then GetEffectiveConfig(o).emergencyDuration
                            else GetEffectiveConfig(o).focusDuration)
    ensures Reduce(Reduce(s, ToggleEmergencyMode(o)), ToggleEmergencyMode(o2)).isMinimumViable == s.isMinimumViable
  {
  }

  /** The session counter grows by exactly one when a focus session ends
      (END_SESSION or START_BREAK from focus), is reset to zero by RESET_DAY,
      and is otherwise unchanged. */
  lemma SessionCountGrowth(s: SessionState, a: SessionAction)
    ensures var r := Reduce(s, a);
      (a.ResetDay? ==> r.sessionCount == 0)
      && (!a.ResetDay? ==>
            r.sessionCount == (if (a.EndSession? || a.StartBreak?) && s.phase == Focus
                               then s.sessionCount + 1 else s.sessionCount))
  {
  }

  /** START_BREAK acts only from focus, and starts the break running. */
  lemma StartBreakEffect(s: SessionState, o: Option<ConfigOverride>)
    ensures var r := Reduce(s, StartBreak(o));
      (s.phase != Focus ==> r == s)
      && (s.phase == Focus ==>
            r.phase == Break && r.isTimerRunning && r.activeTaskId.None?
            && r.timerSeconds == GetPhaseDuration(Break, s.isMinimumViable, GetEffectiveConfig(o)))
  {
  }

  /** RESET_DAY returns the initial state with the (possibly overridden)
      focus length on the timer, from any state. */
  lemma ResetDayEffect(s: SessionState, o: Option<ConfigOverride>)
    ensures Reduce(s, ResetDay(o)) == InitialSessionState.(timerSeconds := GetEffectiveConfig(o).focusDuration)
    ensures Reduce(s, ResetDay(None)) == InitialSessionState
  {
  }

  /** `getPhaseDuration` matches what the reducer puts on the timer when it
      enters a timed phase, and planning and shutdown have no duration. */
  lemma PhaseDurationMatchesReducer(s: SessionState, taskId: string, o: Option<ConfigOverride>)
    ensures s.phase == Planning ==>
      Reduce(s, StartFocus(taskId, o)).timerSeconds == GetPhaseDuration(Focus, s.isMinimumViable, GetEffectiveConfig(o))
    ensures s.phase == Focus ==>
      Reduce(s, StartBreak(o)).timerSeconds == GetPhaseDuration(Break, s.isMinimumViable, GetEffectiveConfig(o))
    ensures GetPhaseDuration(Planning, s.isMinimumViable, GetEffectiveConfig(o)) == 0
    ensures s.phase == Focus ==>
      Reduce(s, EndSession).timerSeconds == GetPhaseDuration(Break, s.isMinimumViable, DefaultConfig)
  {
  }

  /** "MM:SS" reads back as minutes * 60 + secs. */
  lemma ClockTwoFields(shown: string, minutes: nat, secs: nat, total: nat)
    requires minutes < 100 && secs < 100
    requires shown == JsText.TwoDigits(minutes) + ":" + JsText.TwoDigits(secs)
    requires total == minutes * 60 + secs
    ensures JsText.ParseClock(shown) == Some(total)
  {
    JsText.TwoDigitsRead(minutes);
    JsText.TwoDigitsRead(secs);
    JsText.TwoFieldsRead(shown, JsText.TwoDigits(minutes), JsText.TwoDigits(secs), minutes, secs, total);
  }

  /** "H:MM:SS" reads back as (lead * 60 + minutes) * 60 + secs. */
  lemma ClockThreeFields(shown: string, lead: nat, minutes: nat, secs: nat, total: nat)
    requires minutes < 100 && secs < 100
    requires shown == JsText.NatToString(lead) + ":" + JsText.TwoDigits(minutes) + ":" + JsText.TwoDigits(secs)
    requires total == (lead * 60 + minutes) * 60 + secs
    ensures JsText.ParseClock(shown) == Some(total)
  {
    JsText.ParseNatToString(lead);
    JsText.TwoDigitsRead(minutes);
    JsText.TwoDigitsRead(secs);
    JsText.ThreeFieldsRead(shown, JsText.NatToString(lead), JsText.TwoDigits(minutes), JsText.TwoDigits(secs), lead, minutes, secs, total);
  }

  /** For a non-negative count, the three fields are the usual quotient and
      remainders. */
  lemma FormatTimeFields(seconds: int)
    requires seconds >= 0
    ensures FormatTime(seconds)
         == (if seconds / 3600 > 0
             then JsText.NatToString(seconds / 3600) + ":" + JsText.TwoDigits((seconds % 3600) / 60) + ":" + JsText.TwoDigits(seconds % 60)
             else JsText.TwoDigits((seconds % 3600) / 60) + ":" + JsText.TwoDigits(seconds % 60))
  {
  }

  /** Hours, minutes and seconds recombine to the count. */
  lemma ClockArithmetic(seconds: nat)
    ensures (seconds % 3600) / 60 < 60 && seconds % 60 < 60
    ensures ((seconds / 3600) * 60 + (seconds % 3600) / 60) * 60 + seconds % 60 == seconds
    ensures seconds / 3600 == 0 ==> ((seconds % 3600) / 60) * 60 + seconds % 60 == seconds
    ensures seconds / 3600 == 0 <==> seconds < 3600
  {
    var h, r := seconds / 3600, seconds % 3600;
    var m, x := r / 60, r % 60;
    assert seconds == (h * 60 + m) * 60 + x;
    SixtyDivMod(seconds, h * 60 + m, x);
  }

  /** Division by 60 is determined by a quotient and a remainder below 60. */
  lemma SixtyDivMod(n: int, q: int, r: int)
    requires n == q * 60 + r && 0 <= r < 60
    ensures n / 60 == q && n % 60 == r
  {
  }

  /** The display of a non-negative count reads back, field by field in
      base 60, as the same count. */
  lemma FormatTimeReadsBack(seconds: int)
    requires seconds >= 0
    ensures JsText.ParseClock(FormatTime(seconds)) == Some(seconds)
  {
    if seconds < 3600 {
      ShortClockReadsBack(seconds);
    } else {
      LongClockReadsBack(seconds);
    }
  }

  lemma ShortClockReadsBack(seconds: int)
    requires 0 <= seconds < 3600
    ensures JsText.ParseClock(FormatTime(seconds)) == Some(seconds)
  {
    ClockArithmetic(seconds);
    FormatTimeFields(seconds);
    ClockTwoFields(FormatTime(seconds), (seconds % 3600) / 60, seconds % 60, seconds);
  }

  lemma LongClockReadsBack(seconds: int)
    requires seconds >= 3600
    ensures JsText.ParseClock(FormatTime(seconds)) == Some(seconds)
  {
    ClockArithmetic(seconds);
    FormatTimeFields(seconds);
    ClockThreeFields(FormatTime(seconds), seconds / 3600, (seconds % 3600) / 60, seconds % 60, seconds);
  }

  /** Below an hour the display is "MM:SS", five characters long. */
  lemma FormatTimeShortLength(seconds: int)
    requires 0 <= seconds < 3600
    ensures |FormatTime(seconds)| == 5
  {
    var minutes := (seconds % 3600) / 60;
    var secs := seconds % 60;
    ClockArithmetic(seconds);
    FormatTimeFields(seconds);
    JsText.TwoDigitsRead(minutes);
    JsText.TwoDigitsRead(secs);
  }

  /** An hour and a half reads "1:30:00", and zero reads "00:00". */
  lemma FormatTimeExamples()
    ensures FormatTime(5400) == "1:30:00" && FormatTime(0) == "00:00"
  {
    JsText.SmallNumerals();
    assert 5400 / 3600 == 1 && JsText.JsRem(5400, 3600) / 60 == 30 && JsText.JsRem(5400, 60) == 0;
    assert JsText.IntToString(1) == "1" && JsText.PadStart2(JsText.IntToString(30)) == "30";
    assert JsText.PadStart2(JsText.IntToString(0)) == "00";
  }

  /** The label depends on the mode only while planning or in focus. */
  lemma PhaseLabels(phase: SessionPhase)
    ensures GetPhaseLabel(phase, true) != GetPhaseLabel(phase, false) <==> (phase == Planning || phase == Focus)
  {
  }
}
