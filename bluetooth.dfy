/** The device service: one mutable device-state record, the GATT handles,
    and the reconnection supervisor. Every call into Web Bluetooth (choosing a
    device, GATT connect, discovery, subscribing, reading, writing) is an
    outcome the caller supplies; a firing of the reconnect timer is an
    explicit method. Each operation is specified by a pure function on a
    `Service` snapshot, and the class below performs it step by step. */
module Bluetooth {
  import opened Wrappers
  import JsText
  import opened DeviceProtocol

  const MaxReconnectAttempts: int := 5

  datatype ConnectionState = Disconnected | Connecting | Connected | Reconnecting

  datatype VoiceState = Idle | Recording | Processing

  /** The service's device-state record. Timer, lock and phone states are
      kept as raw codes: decoded values are not checked against their enums. */
  datatype DeviceState = DeviceState(
    connectionState: ConnectionState,
    deviceName: Option<string>,
    batteryLevel: int,
    timerState: int,
    timerDurationMinutes: int,
    timerRemainingSeconds: int,
    lockState: int,
    phonePresence: int,
    dialPosition: int,
    firmwareVersion: Option<string>,
    lastEventTime: int,
    reconnectAttempts: int,
    voiceState: VoiceState)

  const InitialState: DeviceState := DeviceState(
    Disconnected, None, 0, TimerIdle, 0, 0, LockUnlocked, PhoneAbsent, 0, None, 0, 0, Idle)

  /** `Partial<DeviceState>`: the fields an update sets. */
  datatype Patch = Patch(
    connectionState: Option<ConnectionState>,
    deviceName: Option<Option<string>>,
    batteryLevel: Option<int>,
    timerState: Option<int>,
    timerDurationMinutes: Option<int>,
    timerRemainingSeconds: Option<int>,
    lockState: Option<int>,
    phonePresence: Option<int>,
    dialPosition: Option<int>,
    firmwareVersion: Option<Option<string>>,
    lastEventTime: Option<int>,
    reconnectAttempts: Option<int>,
    voiceState: Option<VoiceState>)

  const NoChange: Patch := Patch(None, None, None, None, None, None, None, None, None, None, None, None, None)

  /** `Object.assign(state, updates)`. */
  function Apply(s: DeviceState, p: Patch): DeviceState {
    DeviceState(
      p.connectionState.GetOr(s.connectionState),
      p.deviceName.GetOr(s.deviceName),
      p.batteryLevel.GetOr(s.batteryLevel),
      p.timerState.GetOr(s.timerState),
      p.timerDurationMinutes.GetOr(s.timerDurationMinutes),
      p.timerRemainingSeconds.GetOr(s.timerRemainingSeconds),
      p.lockState.GetOr(s.lockState),
      p.phonePresence.GetOr(s.phonePresence),
      p.dialPosition.GetOr(s.dialPosition),
      p.firmwareVersion.GetOr(s.firmwareVersion),
      p.lastEventTime.GetOr(s.lastEventTime),
      p.reconnectAttempts.GetOr(s.reconnectAttempts),
      p.voiceState.GetOr(s.voiceState))
  }

  function Override<T>(a: Option<T>, b: Option<T>): Option<T> {
    if b.Some? then b else a
  }

  /** One update holding the fields of `p`, overridden by those of `q`. */
  function Then(p: Patch, q: Patch): Patch {
    Patch(
      Override(p.connectionState, q.connectionState),
      Override(p.deviceName, q.deviceName),
      Override(p.batteryLevel, q.batteryLevel),
      Override(p.timerState, q.timerState),
      Override(p.timerDurationMinutes, q.timerDurationMinutes),
      Override(p.timerRemainingSeconds, q.timerRemainingSeconds),
      Override(p.lockState, q.lockState),
      Override(p.phonePresence, q.phonePresence),
      Override(p.dialPosition, q.dialPosition),
      Override(p.firmwareVersion, q.firmwareVersion),
      Override(p.lastEventTime, q.lastEventTime),
      Override(p.reconnectAttempts, q.reconnectAttempts),
      Override(p.voiceState, q.voiceState))
  }

  /** An empty update changes nothing, a repeated update changes nothing
      more, and two updates in a row are one merged update. */
  lemma ApplyLaws(s: DeviceState, p: Patch, q: Patch)
    ensures Apply(s, NoChange) == s
    ensures Apply(Apply(s, p), p) == Apply(s, p)
    ensures Apply(Apply(s, p), q) == Apply(s, Then(p, q))
  {
  }

  // ---------------------------------------------------------------
  // What the Web Bluetooth calls did, as inputs
  // ---------------------------------------------------------------

  /** A thrown `Error` (or `DOMException`): its `name` and its `message`. */
  datatype JsError = JsError(name: string, message: string)

  /** `new Error(message)`. */
  function PlainError(message: string): JsError {
    JsError("Error", message)
  }

  /** `${error}`, i.e. `Error.prototype.toString`. */
  function ErrorText(e: JsError): string {
    if e.name == "" then e.message
    else if e.message == "" then e.name
    else e.name + ": " + e.message
  }

  datatype Step = Ok | Fail(error: JsError)

  /** The outcome of `readValue()`. */
  datatype Read = Value(bytes: seq<Byte>) | ReadFailed(error: JsError)

  /** The outcome of `navigator.bluetooth.requestDevice`. */
  datatype Pick = Picked(name: Option<string>, hasGatt: bool) | NoDevice | PickFailed(error: JsError)

  /** The outcomes of the calls made while bringing a link up, in call order. */
  datatype LinkSteps = LinkSteps(
    connect: Step,
    sessionService: Step, commandChar: Step, eventChar: Step, stateChar: Step,
    deviceInfoService: Step, batteryChar: Step,
    voiceService: Step, voiceChar: Step,
    eventNotify: Step, stateNotify: Step, stateRead: Read,
    batteryNotify: Step, batteryRead: Read,
    voiceNotify: Step,
    syncWrite: Step)

  /** Which module-level handles are non-null. */
  datatype Handles = Handles(
    device: bool, deviceHasGatt: bool, server: bool,
    sessionService: bool, voiceService: bool,
    command: bool, event: bool, stateChar: bool, battery: bool, voice: bool)

  const NoHandles: Handles := Handles(false, false, false, false, false, false, false, false, false, false)

  /** The calls the service makes into the registered event handlers. */
  datatype Notice =
    | OnStateChange(snapshot: DeviceState)
    | OnEvent(packet: EventPacket)
    | OnDialRotated(delta: int)
    | OnPhonePlaced | OnPhoneRemoved | OnLockEngaged | OnLockReleased
    | OnButtonPressed | OnTimerComplete
    | OnVoiceEvent(voicePacket: VoiceEventPacket)
    | OnError(message: string)
    | OnDisconnect

  /** Everything the service keeps: the state record, the handles, the two
      reconnection variables, the command counter, the frames handed to the
      command characteristic, and the handler calls made so far. */
  datatype Service = Service(
    state: DeviceState,
    handles: Handles,
    isReconnecting: bool,
    timerPending: bool,
    sequence: nat,
    sent: seq<seq<Byte>>,
    notices: seq<Notice>)

  const InitialService: Service := Service(InitialState, NoHandles, false, false, 0, [], [])

  /** What every operation keeps: at most five reconnection attempts are
      counted, and a reconnect timer is pending exactly while reconnecting. */
  predicate ValidService(m: Service) {
    0 <= m.state.reconnectAttempts <= MaxReconnectAttempts
    && (m.isReconnecting <==> m.timerPending)
  }

  datatype Outcome = Done | Threw(error: JsError)

  /** A new snapshot together with how the async operation settled. */
  datatype Reply = Reply(service: Service, outcome: Outcome)

  /** `updateState`: merge, then hand a copy of the record to `onStateChange`. */
  function Update(m: Service, p: Patch): Service {
    var s := Apply(m.state, p);
    m.(state := s, notices := m.notices + [OnStateChange(s)])
  }

  function Notify(m: Service, n: Notice): Service {
    m.(notices := m.notices + [n])
  }

  // ---------------------------------------------------------------
  // Notifications from the device
  // ---------------------------------------------------------------

  /** The `switch` of `handleEventNotification` on a decoded packet. */
  function Dispatch(m: Service, p: EventPacket): Service {
    var e := p.event;
    if e == EvDialRotated then
      var delta := DialDelta(p.payload);
      Notify(Update(m, NoChange.(dialPosition := Some(m.state.dialPosition + delta))), OnDialRotated(delta))
    else if e == EvPhonePlaced then
      Notify(Update(m, NoChange.(phonePresence := Some(PhonePresent))), OnPhonePlaced)
    else if e == EvPhoneRemoved then
      Notify(Update(m, NoChange.(phonePresence := Some(PhoneAbsent))), OnPhoneRemoved)
    else if e == EvLockEngaged then
      Notify(Update(m, NoChange.(lockState := Some(LockLocked))), OnLockEngaged)
    else if e == EvLockReleased then
      Notify(Update(m, NoChange.(lockState := Some(LockUnlocked))), OnLockReleased)
    else if e == EvButtonPressed then
      Notify(m, OnButtonPressed)
    else if e == EvTimerComplete then
      Notify(Update(m, NoChange.(timerState := Some(TimerCompleted), timerRemainingSeconds := Some(0))),
             OnTimerComplete)
    else if e == EvBatteryChanged then
      if |p.payload| > 0 then Update(m, NoChange.(batteryLevel := Some(p.payload[0]))) else m
    else if e == EvError then
      Notify(m, OnError(DeviceErrorMessage(p.payload)))
    else m
  }

  /** `Device error: code ${payload[0]}`, where a missing byte reads `undefined`. */
  function DeviceErrorMessage(payload: seq<Byte>): string {
    "Device error: code " + (if |payload| > 0 then JsText.NatToString(payload[0]) else "undefined")
  }

  /** `handleEventNotification`, with `Date.now()` as `now`. */
  function EventSpec(m: Service, value: Option<seq<Byte>>, now: int): Service {
    match value
    case None => m
    case Some(data) =>
      match EventFromFrame(data, now)
      case Failure(_) => m
      case Success(p) => Dispatch(Notify(Update(m, NoChange.(lastEventTime := Some(now))), OnEvent(p)), p)
  }

  /** The eight fields a state report overwrites. */
  function StatePatch(sp: StatePacket): Patch {
    NoChange.(
      timerState := Some(sp.timerState),
      timerDurationMinutes := Some(sp.timerDurationMinutes),
      timerRemainingSeconds := Some(sp.timerRemainingSeconds),
      lockState := Some(sp.lockState),
      phonePresence := Some(sp.phonePresence),
      batteryLevel := Some(sp.batteryPercent),
      dialPosition := Some(sp.dialPosition),
      firmwareVersion := Some(Some(sp.firmwareVersion)))
  }

  /** `processStateData`: a report that does not decode is dropped. */
  function StateSpec(m: Service, data: seq<Byte>): Service {
    match StateFromFrame(data)
    case Failure(_) => m
    case Success(sp) => Update(m, StatePatch(sp))
  }

  /** `handleBatteryNotification`. A value that does not decode throws out of
      the listener before any update. */
  function BatterySpec(m: Service, value: Option<seq<Byte>>): Service {
    match value
    case None => m
    case Some(data) =>
      match BatteryFromValue(data)
      case Failure(_) => m
      case Success(level) => Update(m, NoChange.(batteryLevel := Some(level)))
  }

  /** The voice state a voice event leads to, if it changes it. */
  function VoiceTarget(event: Byte): Option<VoiceState> {
    if event == VoiceRecordStart || event == VoiceToggleOn then Some(Recording)
    else if event == VoiceRecordStop || event == VoiceToggleOff then Some(Processing)
    else None
  }

  /** `handleVoiceNotification`. */
  function VoiceSpec(m: Service, value: Option<seq<Byte>>, now: int): Service {
    match value
    case None => m
    case Some(data) =>
      match VoiceFromFrame(data, now)
      case Failure(_) => m
      case Success(vp) =>
        var m1 := match VoiceTarget(vp.event)
          case Some(v) => Update(m, NoChange.(voiceState := Some(v)))
          case None => m;
        Notify(m1, OnVoiceEvent(vp))
  }

  // ---------------------------------------------------------------
  // Commands
  // ---------------------------------------------------------------

  /** `sendCommand`: refuses without a command characteristic; otherwise
      takes a stamp from the counter and writes the frame. */
  function SendCommandSpec(m: Service, command: Command, payload: seq<int>, write: Step): Reply {
    if !m.handles.command then Reply(m, Threw(PlainError("Not connected to device")))
    else
      var frame := CommandFrame(command, m.sequence % 256, payload);
      var m1 := m.(sequence := m.sequence + 1, sent := m.sent + [frame]);
      match write
      case Ok => Reply(m1, Done)
      case Fail(e) => Reply(m1, Threw(PlainError("Failed to send command: " + e.message)))
  }

  /** A command followed by an optimistic update once the write succeeded. */
  function CommandThenSpec(m: Service, command: Command, write: Step, p: Patch): Reply {
    var r := SendCommandSpec(m, command, [], write);
    if r.outcome.Threw? then r else Reply(Update(r.service, p), Done)
  }

  /** `startFocus` and `setDuration`: the frame is written directly, so a
      failed write propagates unwrapped. */
  function DurationCommandSpec(m: Service, command: Command, durationMinutes: int, write: Step, p: Patch): Reply {
    if !m.handles.command then Reply(m, Threw(PlainError("Not connected to device")))
    else
      var frame := CommandFrame(command, m.sequence % 256, DurationPayload(durationMinutes));
      var m1 := m.(sequence := m.sequence + 1, sent := m.sent + [frame]);
      match write
      case Fail(e) => Reply(m1, Threw(e))
      case Ok => Reply(Update(m1, p), Done)
  }

  function StartFocusPatch(durationMinutes: int): Patch {
    NoChange.(timerState := Some(TimerRunning), timerDurationMinutes := Some(durationMinutes),
              timerRemainingSeconds := Some(durationMinutes * 60))
  }

  // ---------------------------------------------------------------
  // Bringing a link up
  // ---------------------------------------------------------------

  function SetupFailure(e: JsError): Outcome {
    Threw(PlainError("Failed to setup characteristics: " + ErrorText(e)))
  }

  /** `setupServicesAndCharacteristics`: the four mandatory lookups in order
      (a failure keeps the handles found before it), then the optional
      battery and voice lookups, whose failures keep the old handles. */
  function SetupSpec(m: Service, link: LinkSteps): Reply {
    if !m.handles.server then Reply(m, Threw(PlainError("Not connected")))
    else
      var r := MandatorySetup(m, link);
      if r.outcome.Threw? then r
      else Reply(r.service.(handles := OptionalHandles(r.service.handles, link)), Done)
  }

  /** The session service and its command, event and state characteristics. */
  function MandatorySetup(m: Service, link: LinkSteps): Reply {
    if link.sessionService.Fail? then Reply(m, SetupFailure(link.sessionService.error))
    else
      var h1 := m.handles.(sessionService := true);
      if link.commandChar.Fail? then Reply(m.(handles := h1), SetupFailure(link.commandChar.error))
      else
        var h2 := h1.(command := true);
        if link.eventChar.Fail? then Reply(m.(handles := h2), SetupFailure(link.eventChar.error))
        else
          var h3 := h2.(event := true);
          if link.stateChar.Fail? then Reply(m.(handles := h3), SetupFailure(link.stateChar.error))
          else Reply(m.(handles := h3.(stateChar := true)), Done)
  }

  /** The battery characteristic needs both its lookups; the voice service
      is kept even when its characteristic is missing. */
  function OptionalHandles(h: Handles, link: LinkSteps): Handles {
    var h1 := if link.deviceInfoService.Ok? && link.batteryChar.Ok? then h.(battery := true) else h;
    if link.voiceService.Fail? then h1
    else if link.voiceChar.Fail? then h1.(voiceService := true)
    else h1.(voiceService := true, voice := true)
  }

  /** `subscribeToNotifications`: event and state subscriptions may throw;
      the initial state read, the battery subscription and read, and the
      voice subscription are best effort. */
  function SubscribeSpec(m: Service, link: LinkSteps): Reply {
    if m.handles.event && link.eventNotify.Fail? then Reply(m, Threw(link.eventNotify.error))
    else if m.handles.stateChar && link.stateNotify.Fail? then Reply(m, Threw(link.stateNotify.error))
    else
      var m1 := if m.handles.stateChar && link.stateRead.Value? then StateSpec(m, link.stateRead.bytes) else m;
      var m2 :=
        if m1.handles.battery && link.batteryNotify.Ok? && link.batteryRead.Value? then
          match BatteryFromValue(link.batteryRead.bytes)
          case Success(level) => Update(m1, NoChange.(batteryLevel := Some(level)))
          case Failure(_) => m1
        else m1;
      Reply(m2, Done)
  }

  /** GATT connect, discovery, subscription and the SYNC_STATE request:
      the part shared by connecting and reconnecting. */
  function LinkUpSpec(m: Service, link: LinkSteps): Reply {
    if link.connect.Fail? then Reply(m, Threw(link.connect.error))
    else
      var r1 := SetupSpec(m.(handles := m.handles.(server := true)), link);
      if r1.outcome.Threw? then r1
      else
        var r2 := SubscribeSpec(r1.service, link);
        if r2.outcome.Threw? then r2
        else SendCommandSpec(r2.service, SyncState, [], link.syncWrite)
  }

  /** `device.name || 'LIN34R Device'`. */
  function DeviceNameOr(name: Option<string>): string {
    if name.Some? && name.value != "" then name.value else "LIN34R Device"
  }

  /** The `try` block of `connectDevice`. A rejected `requestDevice` leaves
      `device` as it was; a resolved one replaces it. */
  function ConnectTrySpec(m: Service, pick: Pick, link: LinkSteps): Reply {
    match pick
    case PickFailed(e) => Reply(m, Threw(e))
    case NoDevice =>
      Reply(m.(handles := m.handles.(device := false, deviceHasGatt := false)), Threw(PlainError("No device selected")))
    case Picked(name, hasGatt) =>
      var m1 := m.(handles := m.handles.(device := true, deviceHasGatt := hasGatt));
      if !hasGatt then Reply(m1, Threw(PlainError("GATT not available on device")))
      else
        var m2 := Update(m1, NoChange.(deviceName := Some(Some(DeviceNameOr(name)))));
        var r := LinkUpSpec(m2, link);
        if r.outcome.Threw? then r else Reply(Update(r.service, NoChange.(connectionState := Some(Connected))), Done)
  }

  const UnsupportedMessage: string := "Web Bluetooth is not supported in this browser. Please use Chrome, Edge, or Opera."

  /** Whether a failure counts as the user cancelling the chooser. */
  predicate IsCancel(message: string) {
    JsText.Contains(message, "User cancelled") || JsText.Contains(message, "cancelled")
  }

  datatype Connection = Connection(service: Service, ok: bool)

  /** `connectDevice`. */
  function ConnectSpec(m: Service, supported: bool, pick: Pick, link: LinkSteps): Connection {
    if !supported then Connection(Notify(m, OnError(UnsupportedMessage)), false)
    else if m.state.connectionState == Connected then Connection(m, true)
    else
      var m1 := Update(m, NoChange.(connectionState := Some(Connecting), reconnectAttempts := Some(0)));
      Settle(ConnectTrySpec(m1, pick, link))
  }

  /** The `catch` of `connectDevice`: a cancel is silent, any other failure
      is reported; either way the state becomes disconnected. */
  function Settle(r: Reply): Connection {
    match r.outcome
    case Done => Connection(r.service, true)
    case Threw(e) =>
      var m2 := if IsCancel(e.message) then r.service else Notify(r.service, OnError("Connection failed: " + e.message));
      Connection(Update(m2, NoChange.(connectionState := Some(Disconnected))), false)
  }

  // ---------------------------------------------------------------
  // Tearing down and reconnecting
  // ---------------------------------------------------------------

  /** `disconnectDevice`. Stopping notifications is best effort and leaves
      no trace here. */
  function DisconnectSpec(m: Service): Service {
    var m1 := m.(timerPending := false, isReconnecting := false, handles := NoHandles);
    var m2 := Update(m1, NoChange.(connectionState := Some(Disconnected), deviceName := Some(None),
                                   reconnectAttempts := Some(0), voiceState := Some(Idle)));
    Notify(m2, OnDisconnect)
  }

  /** `attemptReconnect`: with a device and no attempt under way, counts one
      more attempt and schedules the reconnect timer. */
  function AttemptReconnectSpec(m: Service): Service {
    if !m.handles.device || m.isReconnecting then m
    else
      var m1 := Update(m.(isReconnecting := true),
                       NoChange.(connectionState := Some(Reconnecting),
                                 reconnectAttempts := Some(m.state.reconnectAttempts + 1)));
      m1.(timerPending := true)
  }

  /** `handleDisconnection`, the `gattserverdisconnected` listener. */
  function LinkLostSpec(m: Service): Service {
    if m.isReconnecting then m
    else
      var m1 := Update(m, NoChange.(connectionState := Some(Disconnected)));
      if m1.state.reconnectAttempts < MaxReconnectAttempts then AttemptReconnectSpec(m1)
      else Notify(Notify(m1, OnDisconnect), OnError("Device disconnected. Max reconnection attempts reached."))
  }

  /** The callback of the reconnect timer. */
  function ReconnectFireSpec(m: Service, link: LinkSteps): Service {
    var m0 := m.(timerPending := false);
    var r :=
      if !(m0.handles.device && m0.handles.deviceHasGatt) then Reply(m0, Threw(PlainError("Device no longer available")))
      else LinkUpSpec(m0, link);
    AfterReconnectTry(r)
  }

  /** How the timer callback goes on once the link attempt has settled. */
  function AfterReconnectTry(r: Reply): Service {
    match r.outcome
    case Done =>
      Update(r.service, NoChange.(connectionState := Some(Connected), reconnectAttempts := Some(0))).(isReconnecting := false)
    case Threw(_) =>
      var m1 := r.service.(isReconnecting := false);
      if m1.state.reconnectAttempts < MaxReconnectAttempts then AttemptReconnectSpec(m1)
      else Notify(DisconnectSpec(m1), OnError("Failed to reconnect after multiple attempts"))
  }

  /** `resetVoiceState`, called once the app has processed the audio. */
  function ResetVoiceSpec(m: Service): Service {
    Update(m, NoChange.(voiceState := Some(Idle)))
  }

  // ---------------------------------------------------------------
  // Properties
  // ---------------------------------------------------------------

  /** The reconnection count and the two reconnection flags are the same. */
  predicate SameSupervisor(a: Service, b: Service) {
    a.state.reconnectAttempts == b.state.reconnectAttempts
    && a.isReconnecting == b.isReconnecting && a.timerPending == b.timerPending
  }

  /** Discovery changes only the handles. */
  lemma SetupTouchesOnlyHandles(m: Service, link: LinkSteps)
    ensures var r := SetupSpec(m, link);
      r.service == m.(handles := r.service.handles)
      && (r.outcome.Done? <==>
            (m.handles.server && link.sessionService.Ok? && link.commandChar.Ok?
             && link.eventChar.Ok? && link.stateChar.Ok?))
      && (r.outcome.Done? ==> r.service.handles.command && r.service.handles.event && r.service.handles.stateChar)
  {
  }

  /** Subscribing changes neither the handles, the counter, the connection
      state nor the reconnection supervisor. */
  lemma SubscribeKeepsSupervisor(m: Service, link: LinkSteps)
    ensures var r := SubscribeSpec(m, link).service;
      SameSupervisor(r, m) && r.handles == m.handles && r.sequence == m.sequence && r.sent == m.sent
      && r.state.connectionState == m.state.connectionState
  {
    var m1 := if m.handles.stateChar && link.stateRead.Value? then StateSpec(m, link.stateRead.bytes) else m;
    assert SameSupervisor(m1, m) && m1.handles == m.handles && m1.state.connectionState == m.state.connectionState;
  }

  /** Bringing a link up leaves the reconnection supervisor alone. */
  lemma LinkUpKeepsSupervisor(m: Service, link: LinkSteps)
    ensures SameSupervisor(LinkUpSpec(m, link).service, m)
  {
    if link.connect.Ok? {
      var m0 := m.(handles := m.handles.(server := true));
      SetupTouchesOnlyHandles(m0, link);
      var r1 := SetupSpec(m0, link);
      if r1.outcome.Done? {
        SubscribeKeepsSupervisor(r1.service, link);
      }
    }
  }

  /** The `try` block of `connectDevice` leaves the supervisor alone. */
  lemma ConnectTryKeepsSupervisor(m: Service, pick: Pick, link: LinkSteps)
    ensures SameSupervisor(ConnectTrySpec(m, pick, link).service, m)
  {
    if pick.Picked? && pick.hasGatt {
      var m1 := m.(handles := m.handles.(device := true, deviceHasGatt := true));
      LinkUpKeepsSupervisor(Update(m1, NoChange.(deviceName := Some(Some(DeviceNameOr(pick.name))))), link);
    }
  }

  /** `connectDevice` keeps the reconnection invariant. */
  lemma ConnectKeepsValid(m: Service, supported: bool, pick: Pick, link: LinkSteps)
    requires ValidService(m)
    ensures ValidService(ConnectSpec(m, supported, pick, link).service)
  {
    ConnectTryKeepsSupervisor(Update(m, NoChange.(connectionState := Some(Connecting), reconnectAttempts := Some(0))), pick, link);
  }

  /** A link loss keeps the reconnection invariant. */
  lemma LinkLostKeepsValid(m: Service)
    requires ValidService(m)
    ensures ValidService(LinkLostSpec(m))
  {
  }

  /** A firing of the reconnect timer, and an explicit disconnect, keep the
      reconnection invariant. */
  lemma ReconnectFireKeepsValid(m: Service, link: LinkSteps)
    requires ValidService(m) && m.timerPending
    ensures ValidService(ReconnectFireSpec(m, link))
    ensures ValidService(DisconnectSpec(m))
  {
    LinkUpKeepsSupervisor(m.(timerPending := false), link);
  }

  /** `r` came from `m` by updating the record and calling handlers: the
      supervisor, the handles and the command log are the same, and the
      earlier handler calls are kept in front of the new ones. */
  predicate Extends(r: Service, m: Service) {
    SameSupervisor(r, m) && r.handles == m.handles && r.sequence == m.sequence && r.sent == m.sent
    && |m.notices| <= |r.notices| && r.notices[..|m.notices|] == m.notices
  }

  lemma UpdateExtends(m: Service, p: Patch)
    requires p.reconnectAttempts.None?
    ensures Extends(Update(m, p), m)
  {
    var r := Update(m, p);
    assert r.notices[..|m.notices|] == m.notices;
  }

  lemma NotifyExtends(m: Service, n: Notice)
    ensures Extends(Notify(m, n), m)
  {
    var r := Notify(m, n);
    assert r.notices[..|m.notices|] == m.notices;
  }

  lemma ExtendsTrans(a: Service, b: Service, c: Service)
    requires Extends(a, b) && Extends(b, c)
    ensures Extends(a, c)
  {
    assert a.notices[..|c.notices|] == a.notices[..|b.notices|][..|c.notices|];
  }

  lemma UpdateNotifyExtends(m: Service, u: Patch, n: Notice)
    requires u.reconnectAttempts.None?
    ensures Extends(Notify(Update(m, u), n), m)
  {
    UpdateExtends(m, u);
    NotifyExtends(Update(m, u), n);
    ExtendsTrans(Notify(Update(m, u), n), Update(m, u), m);
  }

  /** Every branch of the event `switch` only updates the record and calls
      handlers. */
  lemma DispatchExtends(m: Service, p: EventPacket)
    ensures Extends(Dispatch(m, p), m)
  {
    var e := p.event;
    if e == EvDialRotated {
      var delta := DialDelta(p.payload);
      UpdateNotifyExtends(m, NoChange.(dialPosition := Some(m.state.dialPosition + delta)), OnDialRotated(delta));
    } else if e == EvPhonePlaced {
      UpdateNotifyExtends(m, NoChange.(phonePresence := Some(PhonePresent)), OnPhonePlaced);
    } else if e == EvPhoneRemoved {
      UpdateNotifyExtends(m, NoChange.(phonePresence := Some(PhoneAbsent)), OnPhoneRemoved);
    } else if e == EvLockEngaged {
      UpdateNotifyExtends(m, NoChange.(lockState := Some(LockLocked)), OnLockEngaged);
    } else if e == EvLockReleased {
      UpdateNotifyExtends(m, NoChange.(lockState := Some(LockUnlocked)), OnLockReleased);
    } else if e == EvButtonPressed {
      NotifyExtends(m, OnButtonPressed);
    } else if e == EvTimerComplete {
      UpdateNotifyExtends(m, NoChange.(timerState := Some(TimerCompleted), timerRemainingSeconds := Some(0)), OnTimerComplete);
    } else if e == EvBatteryChanged {
      if |p.payload| > 0 {
        UpdateExtends(m, NoChange.(batteryLevel := Some(p.payload[0])));
      }
    } else if e == EvError {
      NotifyExtends(m, OnError(DeviceErrorMessage(p.payload)));
    }
  }

  lemma EventExtends(m: Service, value: Option<seq<Byte>>, now: int)
    ensures Extends(EventSpec(m, value, now), m)
  {
    if value.Some? && EventFromFrame(value.value, now).Success? {
      var p := EventFromFrame(value.value, now).value;
      var m0 := Update(m, NoChange.(lastEventTime := Some(now)));
      var m1 := Notify(m0, OnEvent(p));
      UpdateExtends(m, NoChange.(lastEventTime := Some(now)));
      NotifyExtends(m0, OnEvent(p));
      DispatchExtends(m1, p);
      ExtendsTrans(m1, m0, m);
      ExtendsTrans(Dispatch(m1, p), m1, m);
    }
  }

  lemma VoiceExtends(m: Service, value: Option<seq<Byte>>, now: int)
    ensures Extends(VoiceSpec(m, value, now), m)
  {
    if value.Some? && VoiceFromFrame(value.value, now).Success? {
      var vp := VoiceFromFrame(value.value, now).value;
      var m1 := if VoiceTarget(vp.event).Some? then Update(m, NoChange.(voiceState := VoiceTarget(vp.event))) else m;
      if VoiceTarget(vp.event).Some? {
        UpdateExtends(m, NoChange.(voiceState := VoiceTarget(vp.event)));
      }
      NotifyExtends(m1, OnVoiceEvent(vp));
      ExtendsTrans(Notify(m1, OnVoiceEvent(vp)), m1, m);
    }
  }

  /** Notifications from the device leave the reconnection supervisor alone. */
  lemma NotificationsKeepSupervisor(m: Service, value: Option<seq<Byte>>, now: int)
    ensures SameSupervisor(EventSpec(m, value, now), m)
    ensures SameSupervisor(VoiceSpec(m, value, now), m)
    ensures SameSupervisor(BatterySpec(m, value), m)
    ensures value.Some? ==> SameSupervisor(StateSpec(m, value.value), m)
  {
    EventExtends(m, value, now);
    VoiceExtends(m, value, now);
  }

  /** A link loss while a reconnection is under way is ignored; otherwise the
      state becomes disconnected and, below five attempts and with a device,
      one more attempt is counted and scheduled. */
  lemma LinkLossRetries(m: Service)
    requires ValidService(m)
    ensures m.isReconnecting ==> LinkLostSpec(m) == m
    ensures !m.isReconnecting && m.handles.device && m.state.reconnectAttempts < MaxReconnectAttempts ==>
      var r := LinkLostSpec(m);
      r.isReconnecting && r.timerPending && r.state.connectionState == Reconnecting
      && r.state.reconnectAttempts == m.state.reconnectAttempts + 1
    ensures !m.isReconnecting && m.state.reconnectAttempts >= MaxReconnectAttempts ==>
      var r := LinkLostSpec(m);
      r.state.connectionState == Disconnected && !r.timerPending
      && r.notices[|r.notices| - 2..] == [OnDisconnect, OnError("Device disconnected. Max reconnection attempts reached.")]
  {
  }

  /** A successful reconnection resets the count and reports connected. */
  lemma ReconnectSuccess(m: Service, link: LinkSteps)
    requires m.handles.device && m.handles.deviceHasGatt
    requires LinkUpSpec(m.(timerPending := false), link).outcome.Done?
    ensures var r := ReconnectFireSpec(m, link);
      r.state.connectionState == Connected && r.state.reconnectAttempts == 0
      && !r.isReconnecting && !r.timerPending
  {
    LinkUpKeepsSupervisor(m.(timerPending := false), link);
  }

  /** `disconnectDevice` ends in the same place from anywhere: no handles, no
      pending timer, not reconnecting, disconnected with no name, no attempts
      and an idle voice state; the rest of the record is kept, and the last
      handler call is `onDisconnect`. */
  lemma DisconnectResets(m: Service)
    ensures var r := DisconnectSpec(m);
      r.handles == NoHandles && !r.timerPending && !r.isReconnecting
      && r.state == m.state.(connectionState := Disconnected, deviceName := None,
                             reconnectAttempts := 0, voiceState := Idle)
      && r.sequence == m.sequence && r.sent == m.sent
      && r.notices == m.notices + [OnStateChange(r.state), OnDisconnect]
  {
  }

  /** The `try` block of `connectDevice` completes exactly when a device with
      GATT was chosen and its link came up, and then reports connected. */
  lemma ConnectTryOutcome(m: Service, pick: Pick, link: LinkSteps)
    ensures var r := ConnectTrySpec(m, pick, link);
      r.outcome.Done? ==>
        r.service.state.connectionState == Connected && pick.Picked? && pick.hasGatt && link.connect.Ok?
  {
  }

  /** How a settled attempt is reported: success keeps the service as it is;
      a failure ends disconnected, reporting the message unless it is a cancel. */
  lemma SettleReports(r: Reply)
    ensures var c := Settle(r);
      (c.ok <==> r.outcome.Done?)
      && (c.ok ==> c.service == r.service)
      && (!c.ok ==> c.service.state == r.service.state.(connectionState := Disconnected)
                    && SameSupervisor(c.service, r.service))
      && (r.outcome.Threw? ==>
            (OnError("Connection failed: " + r.outcome.error.message) in c.service.notices[|r.service.notices|..]
             <==> !IsCancel(r.outcome.error.message)))
  {
    if r.outcome.Threw? {
      var c := Settle(r);
      var tail := c.service.notices[|r.service.notices|..];
      if IsCancel(r.outcome.error.message) {
        assert tail == [OnStateChange(c.service.state)];
      } else {
        assert tail == [OnError("Connection failed: " + r.outcome.error.message), OnStateChange(c.service.state)];
      }
    }
  }

  /** `connectDevice` on a supported browser: already connected means `true`
      and no change; otherwise the attempt count is reset, the result is `true`
      exactly when a device with GATT was chosen and the attempt completed,
      and every failure ends disconnected. */
  lemma ConnectOutcome(m: Service, pick: Pick, link: LinkSteps)
    ensures m.state.connectionState == Connected ==> ConnectSpec(m, true, pick, link) == Connection(m, true)
    ensures m.state.connectionState != Connected ==>
      var c := ConnectSpec(m, true, pick, link);
      c.service.state.reconnectAttempts == 0
      && (c.ok ==> c.service.state.connectionState == Connected && pick.Picked? && pick.hasGatt && link.connect.Ok?)
      && (!c.ok ==> c.service.state.connectionState == Disconnected)
  {
    if m.state.connectionState != Connected {
      var m1 := Update(m, NoChange.(connectionState := Some(Connecting), reconnectAttempts := Some(0)));
      ConnectTryKeepsSupervisor(m1, pick, link);
      ConnectTryOutcome(m1, pick, link);
      SettleReports(ConnectTrySpec(m1, pick, link));
    }
  }

  /** A user cancel is never reported as an error. */
  lemma CancelIsSilent(m: Service, pick: Pick, link: LinkSteps, before: string, after: string)
    requires m.state.connectionState != Connected
    requires pick == PickFailed(JsError("NotFoundError", before + "cancelled" + after))
    ensures ConnectSpec(m, true, pick, link).service.notices
         == m.notices + [OnStateChange(m.state.(connectionState := Connecting, reconnectAttempts := 0)),
                         OnStateChange(m.state.(connectionState := Disconnected, reconnectAttempts := 0))]
    ensures !ConnectSpec(m, true, pick, link).ok
  {
    JsText.ContainsInfix(before, "cancelled", after);
  }

  /** Repeated firings of the reconnect timer, stopping once none is pending. */
  function FireAll(m: Service, links: seq<LinkSteps>): Service
    decreases |links|
  {
    if |links| == 0 || !m.timerPending then m else FireAll(ReconnectFireSpec(m, links[0]), links[1..])
  }

  /** Once reconnection is under way with `k` attempts counted, `6 - k`
      failed GATT connects exhaust the budget: the service is torn down and
      reports that reconnecting failed. */
  lemma {:induction false} FailingRetriesGiveUp(m: Service, links: seq<LinkSteps>)
    requires m.isReconnecting && m.timerPending && m.handles.device && m.handles.deviceHasGatt
    requires 1 <= m.state.reconnectAttempts <= MaxReconnectAttempts
    requires |links| == MaxReconnectAttempts + 1 - m.state.reconnectAttempts
    requires forall i :: 0 <= i < |links| ==> links[i].connect.Fail?
    ensures var r := FireAll(m, links);
      r.state.connectionState == Disconnected && r.state.reconnectAttempts == 0
      && r.handles == NoHandles && !r.isReconnecting && !r.timerPending
      && |r.notices| > 0 && r.notices[|r.notices| - 1] == OnError("Failed to reconnect after multiple attempts")
    decreases |links|
  {
    var next := ReconnectFireSpec(m, links[0]);
    if m.state.reconnectAttempts < MaxReconnectAttempts {
      assert next.state.reconnectAttempts == m.state.reconnectAttempts + 1;
      assert next.timerPending && next.isReconnecting && next.handles == m.handles;
      FailingRetriesGiveUp(next, links[1..]);
      assert FireAll(m, links) == FireAll(next, links[1..]);
    } else {
      assert !next.timerPending;
      assert FireAll(m, links) == FireAll(next, links[1..]) == next;
    }
  }

  /** From a connected device with no attempts counted, losing the link and
      then failing to connect five times ends disconnected, as the reconnect
      budget of five allows no sixth attempt. */
  lemma FiveFailedReconnects(m: Service, links: seq<LinkSteps>)
    requires ValidService(m) && !m.isReconnecting && m.handles.device && m.handles.deviceHasGatt
    requires m.state.reconnectAttempts == 0
    requires |links| == 5 && forall i :: 0 <= i < 5 ==> links[i].connect.Fail?
    ensures var r := FireAll(LinkLostSpec(m), links);
      r.state.connectionState == Disconnected && r.handles == NoHandles && !r.timerPending
      && |r.notices| > 0 && r.notices[|r.notices| - 1] == OnError("Failed to reconnect after multiple attempts")
  {
    LinkLossRetries(m);
    FailingRetriesGiveUp(LinkLostSpec(m), links);
  }

  /** How a decoded event changes the record: DIAL_ROTATED adds the signed
      delta, PHONE_* and LOCK_* set presence and lock, TIMER_COMPLETE sets
      COMPLETED with nothing remaining, BATTERY_CHANGED copies a present first
      byte, and every other event changes only `lastEventTime`. A frame that
      does not decode changes nothing. */
  lemma EventEffect(m: Service, data: seq<Byte>, now: int)
    ensures EventFromFrame(data, now).Failure? ==> EventSpec(m, Some(data), now) == m
    ensures EventFromFrame(data, now).Success? ==>
      var p := EventFromFrame(data, now).value;
      var s := m.state.(lastEventTime := now);
      var r := EventSpec(m, Some(data), now);
      r.handles == m.handles && r.sent == m.sent && r.sequence == m.sequence
      && r.isReconnecting == m.isReconnecting && r.timerPending == m.timerPending
      && r.notices[|m.notices|..|m.notices| + 2] == [OnStateChange(s), OnEvent(p)]
      && r.notices == m.notices + [OnStateChange(s), OnEvent(p)] + FollowUp(r.state, p)
      && r.state == (
        if p.event == EvDialRotated then s.(dialPosition := s.dialPosition + DialDelta(p.payload))
        else if p.event == EvPhonePlaced then s.(phonePresence := PhonePresent)
        else if p.event == EvPhoneRemoved then s.(phonePresence := PhoneAbsent)
        else if p.event == EvLockEngaged then s.(lockState := LockLocked)
        else if p.event == EvLockReleased then s.(lockState := LockUnlocked)
        else if p.event == EvTimerComplete then s.(timerState := TimerCompleted, timerRemainingSeconds := 0)
        else if p.event == EvBatteryChanged && |p.payload| > 0 then s.(batteryLevel := p.payload[0])
        else s)
  {
    if EventFromFrame(data, now).Success? {
      var p := EventFromFrame(data, now).value;
      var m0 := Update(m, NoChange.(lastEventTime := Some(now)));
      var m1 := Notify(m0, OnEvent(p));
      assert m1.state == m.state.(lastEventTime := now);
      assert m1.notices == m.notices + [OnStateChange(m1.state), OnEvent(p)];
      EventExtends(m, Some(data), now);
      DispatchExtends(m1, p);
      DispatchState(m1, p);
      DispatchNotices(m1, p);
      var r := Dispatch(m1, p);
      assert r.notices[|m.notices|..|m.notices| + 2] == r.notices[..|m1.notices|][|m.notices|..];
    }
  }

  /** The handler calls the event `switch` makes for `p`, in order, when
      `t` is the record after it: a field change is reported as the new
      record before the kind's own handler is called. */
  function FollowUp(t: DeviceState, p: EventPacket): seq<Notice> {
    var e := p.event;
    if e == EvDialRotated then [OnStateChange(t), OnDialRotated(DialDelta(p.payload))]
    else if e == EvPhonePlaced then [OnStateChange(t), OnPhonePlaced]
    else if e == EvPhoneRemoved then [OnStateChange(t), OnPhoneRemoved]
    else if e == EvLockEngaged then [OnStateChange(t), OnLockEngaged]
    else if e == EvLockReleased then [OnStateChange(t), OnLockReleased]
    else if e == EvButtonPressed then [OnButtonPressed]
    else if e == EvTimerComplete then [OnStateChange(t), OnTimerComplete]
    else if e == EvBatteryChanged then (if |p.payload| > 0 then [OnStateChange(t)] else [])
    else if e == EvError then [OnError(DeviceErrorMessage(p.payload))]
    else []
  }

  /** The event `switch` appends exactly the calls `FollowUp` lists. */
  lemma DispatchNotices(m: Service, p: EventPacket)
    ensures Dispatch(m, p).notices == m.notices + FollowUp(Dispatch(m, p).state, p)
  {
    var e := p.event;
    if e == EvDialRotated {
      ReportThen(m, NoChange.(dialPosition := Some(m.state.dialPosition + DialDelta(p.payload))), OnDialRotated(DialDelta(p.payload)));
    } else if e == EvPhonePlaced {
      ReportThen(m, NoChange.(phonePresence := Some(PhonePresent)), OnPhonePlaced);
    } else if e == EvPhoneRemoved {
      ReportThen(m, NoChange.(phonePresence := Some(PhoneAbsent)), OnPhoneRemoved);
    } else if e == EvLockEngaged {
      ReportThen(m, NoChange.(lockState := Some(LockLocked)), OnLockEngaged);
    } else if e == EvLockReleased {
      ReportThen(m, NoChange.(lockState := Some(LockUnlocked)), OnLockReleased);
    } else if e == EvTimerComplete {
      ReportThen(m, NoChange.(timerState := Some(TimerCompleted), timerRemainingSeconds := Some(0)), OnTimerComplete);
    }
  }

  /** An update followed by one more handler call appends the new record
      and that call. */
  lemma ReportThen(m: Service, u: Patch, n: Notice)
    ensures var r := Notify(Update(m, u), n);
      r.notices == m.notices + [OnStateChange(r.state), n]
  {
  }

  /** The record after the event `switch`, field by field. */
  lemma DispatchState(m: Service, p: EventPacket)
    ensures var s := m.state;
      Dispatch(m, p).state == (
        if p.event == EvDialRotated then s.(dialPosition := s.dialPosition + DialDelta(p.payload))
        else if p.event == EvPhonePlaced then s.(phonePresence := PhonePresent)
        else if p.event == EvPhoneRemoved then s.(phonePresence := PhoneAbsent)
        else if p.event == EvLockEngaged then s.(lockState := LockLocked)
        else if p.event == EvLockReleased then s.(lockState := LockUnlocked)
        else if p.event == EvTimerComplete then s.(timerState := TimerCompleted, timerRemainingSeconds := 0)
        else if p.event == EvBatteryChanged && |p.payload| > 0 then s.(batteryLevel := p.payload[0])
        else s)
  {
  }

  /** A decoded state report overwrites exactly its eight fields; one that
      does not decode changes nothing. */
  lemma StateReportEffect(m: Service, data: seq<Byte>)
    ensures StateFromFrame(data).Failure? ==> StateSpec(m, data) == m
    ensures StateFromFrame(data).Success? ==>
      var sp := StateFromFrame(data).value;
      StateSpec(m, data).state == m.state.(
        timerState := sp.timerState, timerDurationMinutes := sp.timerDurationMinutes,
        timerRemainingSeconds := sp.timerRemainingSeconds, lockState := sp.lockState,
        phonePresence := sp.phonePresence, batteryLevel := sp.batteryPercent,
        dialPosition := sp.dialPosition, firmwareVersion := Some(sp.firmwareVersion))
  {
  }

  /** START and TOGGLE_ON lead to recording, STOP and TOGGLE_OFF to
      processing, other codes keep the voice state; every decoded voice event
      reaches `onVoiceEvent`. */
  lemma VoiceEffect(m: Service, data: seq<Byte>, now: int)
    ensures VoiceFromFrame(data, now).Failure? ==> VoiceSpec(m, Some(data), now) == m
    ensures VoiceFromFrame(data, now).Success? ==>
      var vp := VoiceFromFrame(data, now).value;
      var r := VoiceSpec(m, Some(data), now);
      r.notices[|r.notices| - 1] == OnVoiceEvent(vp)
      && r.state == m.state.(voiceState :=
           if vp.event == VoiceRecordStart || vp.event == VoiceToggleOn then Recording
           else if vp.event == VoiceRecordStop || vp.event == VoiceToggleOff then Processing
           else m.state.voiceState)
  {
  }

  /** Lock and unlock set the optimistic states LOCKING and UNLOCKING only
      after the command was written; a refused or failed write changes no
      state field. Every command that gets as far as the encoder advances the
      counter by one and hands exactly one frame to the characteristic. */
  lemma CommandEffects(m: Service, command: Command, write: Step, p: Patch)
    ensures var r := CommandThenSpec(m, command, write, p);
      (!m.handles.command ==> r == Reply(m, Threw(PlainError("Not connected to device"))))
      && (m.handles.command ==>
            r.service.sequence == m.sequence + 1
            && r.service.sent == m.sent + [CommandFrame(command, m.sequence % 256, [])]
            && (write.Ok? <==> r.outcome.Done?)
            && r.service.state == (if write.Ok? then Apply(m.state, p) else m.state))
  {
  }

  // ---------------------------------------------------------------
  // The module-level state, as an object
  // ---------------------------------------------------------------

  /** The service's module-level variables. The command counter lives in the
      encoder, as it does in the protocol module. */
  class BluetoothService {
    var state: DeviceState
    var handles: Handles
    var isReconnecting: bool
    var reconnectTimerPending: bool
    var sent: seq<seq<Byte>>
    var notices: seq<Notice>
    const encoder: CommandEncoder

    function Snapshot(): Service
      reads this, encoder
    {
      Service(state, handles, isReconnecting, reconnectTimerPending, encoder.commandSequence, sent, notices)
    }

    predicate Valid()
      reads this, encoder
    {
      ValidService(Snapshot())
    }

    constructor ()
      ensures Snapshot() == InitialService && Valid()
      ensures fresh(encoder)
    {
      state := InitialState;
      handles := NoHandles;
      isReconnecting := false;
      reconnectTimerPending := false;
      sent := [];
      notices := [];
      encoder := new CommandEncoder();
    }

    method UpdateState(p: Patch)
      modifies this
      ensures Snapshot() == Update(old(Snapshot()), p)
      ensures old(Valid()) && (p.reconnectAttempts.Some? ==> 0 <= p.reconnectAttempts.value <= MaxReconnectAttempts) ==> Valid()
    {
      state := Apply(state, p);
      notices := notices + [OnStateChange(state)];
    }

    method Emit(n: Notice)
      modifies this
      ensures Snapshot() == Notify(old(Snapshot()), n)
    {
      notices := notices + [n];
    }

    /** `getConnectionState`: a copy of the record. */
    method GetConnectionState() returns (s: DeviceState)
      ensures s == Snapshot().state
    {
      s := state;
    }

    method IsConnected() returns (connected: bool)
      ensures connected <==> Snapshot().state.connectionState == Connected
    {
      connected := state.connectionState == Connected;
    }

    method GetDeviceName() returns (name: Option<string>)
      ensures name == Snapshot().state.deviceName
    {
      name := state.deviceName;
    }

    method SendCommand(command: Command, payload: seq<int>, write: Step) returns (outcome: Outcome)
      modifies this, encoder
      ensures Reply(Snapshot(), outcome) == SendCommandSpec(old(Snapshot()), command, payload, write)
    {
      if !handles.command {
        return Threw(PlainError("Not connected to device"));
      }
      var packet := encoder.EncodeCommand(command, payload);
      sent := sent + [packet];
      match write {
        case Ok => outcome := Done;
        case Fail(e) => outcome := Threw(PlainError("Failed to send command: " + e.message));
      }
    }

    /** A command whose success is followed by an optimistic update. */
    method SendThenUpdate(command: Command, write: Step, p: Patch) returns (outcome: Outcome)
      modifies this, encoder
      ensures Reply(Snapshot(), outcome) == CommandThenSpec(old(Snapshot()), command, write, p)
    {
      outcome := SendCommand(command, [], write);
      if outcome.Done? {
        UpdateState(p);
      }
    }

    method EndSession(write: Step) returns (outcome: Outcome)
      modifies this, encoder
      ensures Reply(Snapshot(), outcome)
           == CommandThenSpec(old(Snapshot()), Command.EndSession, write,
                              NoChange.(timerState := Some(TimerIdle), timerRemainingSeconds := Some(0)))
    {
      outcome := SendThenUpdate(Command.EndSession, write,
                                NoChange.(timerState := Some(TimerIdle), timerRemainingSeconds := Some(0)));
    }

    method LockPhone(write: Step) returns (outcome: Outcome)
      modifies this, encoder
      ensures Reply(Snapshot(), outcome)
           == CommandThenSpec(old(Snapshot()), Command.LockPhone, write, NoChange.(lockState := Some(LockLocking)))
    {
      outcome := SendThenUpdate(Command.LockPhone, write, NoChange.(lockState := Some(LockLocking)));
    }

    method UnlockPhone(write: Step) returns (outcome: Outcome)
      modifies this, encoder
      ensures Reply(Snapshot(), outcome)
           == CommandThenSpec(old(Snapshot()), Command.UnlockPhone, write, NoChange.(lockState := Some(LockUnlocking)))
    {
      outcome := SendThenUpdate(Command.UnlockPhone, write, NoChange.(lockState := Some(LockUnlocking)));
    }

    method PauseSession(write: Step) returns (outcome: Outcome)
      modifies this, encoder
      ensures Reply(Snapshot(), outcome)
           == CommandThenSpec(old(Snapshot()), Command.PauseSession, write, NoChange.(timerState := Some(TimerPaused)))
    {
      outcome := SendThenUpdate(Command.PauseSession, write, NoChange.(timerState := Some(TimerPaused)));
    }

    method ResumeSession(write: Step) returns (outcome: Outcome)
      modifies this, encoder
      ensures Reply(Snapshot(), outcome)
           == CommandThenSpec(old(Snapshot()), Command.ResumeSession, write, NoChange.(timerState := Some(TimerRunning)))
    {
      outcome := SendThenUpdate(Command.ResumeSession, write, NoChange.(timerState := Some(TimerRunning)));
    }

    method SyncState(write: Step) returns (outcome: Outcome)
      modifies this, encoder
      ensures Reply(Snapshot(), outcome) == SendCommandSpec(old(Snapshot()), Command.SyncState, [], write)
    {
      outcome := SendCommand(Command.SyncState, [], write);
    }

    method StartFocus(durationMinutes: int, write: Step) returns (outcome: Outcome)
      modifies this, encoder
      ensures Reply(Snapshot(), outcome)
           == DurationCommandSpec(old(Snapshot()), Command.StartFocus, durationMinutes, write, StartFocusPatch(durationMinutes))
    {
      if !handles.command {
        return Threw(PlainError("Not connected to device"));
      }
      var packet := encoder.EncodeStartFocus(durationMinutes);
      sent := sent + [packet];
      if write.Fail? {
        return Threw(write.error);
      }
      UpdateState(StartFocusPatch(durationMinutes));
      outcome := Done;
    }

    method SetDuration(durationMinutes: int, write: Step) returns (outcome: Outcome)
      modifies this, encoder
      ensures Reply(Snapshot(), outcome)
           == DurationCommandSpec(old(Snapshot()), Command.SetDuration, durationMinutes, write,
                                  NoChange.(timerDurationMinutes := Some(durationMinutes)))
    {
      if !handles.command {
        return Threw(PlainError("Not connected to device"));
      }
      var packet := encoder.EncodeSetDuration(durationMinutes);
      sent := sent + [packet];
      if write.Fail? {
        return Threw(write.error);
      }
      UpdateState(NoChange.(timerDurationMinutes := Some(durationMinutes)));
      outcome := Done;
    }

    method ResetVoiceState()
      modifies this
      ensures Snapshot() == ResetVoiceSpec(old(Snapshot()))
    {
      UpdateState(NoChange.(voiceState := Some(Idle)));
    }

    // Notifications

    method ProcessStateData(data: seq<Byte>)
      modifies this
      ensures Snapshot() == StateSpec(old(Snapshot()), data)
    {
      var decoded := StateFromFrame(data);
      if decoded.Success? {
        UpdateState(StatePatch(decoded.value));
      }
    }

    method HandleStateNotification(value: Option<seq<Byte>>)
      modifies this
      ensures value.None? ==> Snapshot() == old(Snapshot())
      ensures value.Some? ==> Snapshot() == StateSpec(old(Snapshot()), value.value)
      ensures old(Valid()) ==> Valid()
    {
      NotificationsKeepSupervisor(Snapshot(), value, 0);
      if value.Some? {
        ProcessStateData(value.value);
      }
    }

    method HandleBatteryNotification(value: Option<seq<Byte>>)
      modifies this
      ensures Snapshot() == BatterySpec(old(Snapshot()), value)
      ensures old(Valid()) ==> Valid()
    {
      NotificationsKeepSupervisor(Snapshot(), value, 0);
      if value.None? {
        return;
      }
      var level := BatteryFromValue(value.value);
      if level.Success? {
        UpdateState(NoChange.(batteryLevel := Some(level.value)));
      }
    }

    method HandleVoiceNotification(value: Option<seq<Byte>>, now: int)
      modifies this
      ensures Snapshot() == VoiceSpec(old(Snapshot()), value, now)
      ensures old(Valid()) ==> Valid()
    {
      NotificationsKeepSupervisor(Snapshot(), value, now);
      if value.None? {
        return;
      }
      var decoded := VoiceFromFrame(value.value, now);
      if decoded.Failure? {
        return;
      }
      var vp := decoded.value;
      if vp.event == VoiceRecordStart || vp.event == VoiceToggleOn {
        UpdateState(NoChange.(voiceState := Some(Recording)));
      } else if vp.event == VoiceRecordStop || vp.event == VoiceToggleOff {
        UpdateState(NoChange.(voiceState := Some(Processing)));
      }
      Emit(OnVoiceEvent(vp));
    }

    method HandleEventNotification(value: Option<seq<Byte>>, now: int)
      modifies this
      ensures Snapshot() == EventSpec(old(Snapshot()), value, now)
      ensures old(Valid()) ==> Valid()
    {
      NotificationsKeepSupervisor(Snapshot(), value, now);
      if value.None? {
        return;
      }
      var decoded := DecodeEvent(value.value, now);
      if decoded.Failure? {
        return;
      }
      var p := decoded.value;
      UpdateState(NoChange.(lastEventTime := Some(now)));
      Emit(OnEvent(p));
      Switch(p);
    }

    /** The `switch` on the event kind inside `handleEventNotification`. */
    method Switch(p: EventPacket)
      modifies this
      ensures Snapshot() == Dispatch(old(Snapshot()), p)
    {
      var e := p.event;
      if e == EvDialRotated {
        var delta := DialDelta(p.payload);
        UpdateState(NoChange.(dialPosition := Some(state.dialPosition + delta)));
        Emit(OnDialRotated(delta));
      } else if e == EvPhonePlaced {
        UpdateState(NoChange.(phonePresence := Some(PhonePresent)));
        Emit(OnPhonePlaced);
      } else if e == EvPhoneRemoved {
        UpdateState(NoChange.(phonePresence := Some(PhoneAbsent)));
        Emit(OnPhoneRemoved);
      } else if e == EvLockEngaged {
        UpdateState(NoChange.(lockState := Some(LockLocked)));
        Emit(OnLockEngaged);
      } else if e == EvLockReleased {
        UpdateState(NoChange.(lockState := Some(LockUnlocked)));
        Emit(OnLockReleased);
      } else if e == EvButtonPressed {
        Emit(OnButtonPressed);
      } else if e == EvTimerComplete {
        UpdateState(NoChange.(timerState := Some(TimerCompleted), timerRemainingSeconds := Some(0)));
        Emit(OnTimerComplete);
      } else if e == EvBatteryChanged {
        if |p.payload| > 0 {
          UpdateState(NoChange.(batteryLevel := Some(p.payload[0])));
        }
      } else if e == EvError {
        Emit(OnError(DeviceErrorMessage(p.payload)));
      }
    }

    // Bringing a link up

    method Setup(link: LinkSteps) returns (outcome: Outcome)
      modifies this
      ensures Reply(Snapshot(), outcome) == SetupSpec(old(Snapshot()), link)
    {
      if !handles.server {
        return Threw(PlainError("Not connected"));
      }
      var mandatory := Done;
      if link.sessionService.Fail? {
        mandatory := SetupFailure(link.sessionService.error);
      } else {
        handles := handles.(sessionService := true);
        if link.commandChar.Fail? {
          mandatory := SetupFailure(link.commandChar.error);
        } else {
          handles := handles.(command := true);
          if link.eventChar.Fail? {
            mandatory := SetupFailure(link.eventChar.error);
          } else {
            handles := handles.(event := true);
            if link.stateChar.Fail? {
              mandatory := SetupFailure(link.stateChar.error);
            } else {
              handles := handles.(stateChar := true);
            }
          }
        }
      }
      assert Reply(Snapshot(), mandatory) == MandatorySetup(old(Snapshot()), link);
      if mandatory.Threw? {
        return mandatory;
      }
      OptionalSetup(link);
      outcome := Done;
    }

    method OptionalSetup(link: LinkSteps)
      modifies this
      ensures Snapshot() == old(Snapshot()).(handles := OptionalHandles(old(handles), link))
    {
      if link.deviceInfoService.Ok? && link.batteryChar.Ok? {
        handles := handles.(battery := true);
      }
      if link.voiceService.Ok? {
        handles := handles.(voiceService := true);
        if link.voiceChar.Ok? {
          handles := handles.(voice := true);
        }
      }
    }

    method Subscribe(link: LinkSteps) returns (outcome: Outcome)
      modifies this
      ensures Reply(Snapshot(), outcome) == SubscribeSpec(old(Snapshot()), link)
    {
      if handles.event && link.eventNotify.Fail? {
        return Threw(link.eventNotify.error);
      }
      if handles.stateChar {
        if link.stateNotify.Fail? {
          return Threw(link.stateNotify.error);
        }
        if link.stateRead.Value? {
          ProcessStateData(link.stateRead.bytes);
        }
      }
      if handles.battery && link.batteryNotify.Ok? && link.batteryRead.Value? {
        var level := BatteryFromValue(link.batteryRead.bytes);
        if level.Success? {
          UpdateState(NoChange.(batteryLevel := Some(level.value)));
        }
      }
      outcome := Done;
    }

    method LinkUp(link: LinkSteps) returns (outcome: Outcome)
      modifies this, encoder
      ensures Reply(Snapshot(), outcome) == LinkUpSpec(old(Snapshot()), link)
    {
      if link.connect.Fail? {
        return Threw(link.connect.error);
      }
      handles := handles.(server := true);
      outcome := Setup(link);
      if outcome.Threw? {
        return;
      }
      outcome := Subscribe(link);
      if outcome.Threw? {
        return;
      }
      outcome := SendCommand(Command.SyncState, [], link.syncWrite);
    }

    method ConnectTry(pick: Pick, link: LinkSteps) returns (outcome: Outcome)
      modifies this, encoder
      ensures Reply(Snapshot(), outcome) == ConnectTrySpec(old(Snapshot()), pick, link)
    {
      match pick {
        case PickFailed(e) =>
          return Threw(e);
        case NoDevice =>
          handles := handles.(device := false, deviceHasGatt := false);
          return Threw(PlainError("No device selected"));
        case Picked(name, hasGatt) =>
          handles := handles.(device := true, deviceHasGatt := hasGatt);
          if !hasGatt {
            return Threw(PlainError("GATT not available on device"));
          }
          UpdateState(NoChange.(deviceName := Some(Some(DeviceNameOr(name)))));
          outcome := LinkUp(link);
          if outcome.Done? {
            UpdateState(NoChange.(connectionState := Some(Connected)));
          }
      }
    }

    /** `connectDevice`; `supported` is whether Web Bluetooth is available. */
    method ConnectDevice(supported: bool, pick: Pick, link: LinkSteps) returns (ok: bool)
      modifies this, encoder
      ensures Connection(Snapshot(), ok) == ConnectSpec(old(Snapshot()), supported, pick, link)
      ensures old(Valid()) ==> Valid()
    {
      ghost var m := Snapshot();
      if ValidService(m) {
        ConnectKeepsValid(m, supported, pick, link);
      }
      if !supported {
        Emit(OnError(UnsupportedMessage));
        return false;
      }
      if state.connectionState == Connected {
        return true;
      }
      UpdateState(NoChange.(connectionState := Some(Connecting), reconnectAttempts := Some(0)));
      var outcome := ConnectTry(pick, link);
      match outcome {
        case Done => ok := true;
        case Threw(e) =>
          if !IsCancel(e.message) {
            Emit(OnError("Connection failed: " + e.message));
          }
          UpdateState(NoChange.(connectionState := Some(Disconnected)));
          ok := false;
      }
    }

    // Tearing down and reconnecting

    method DisconnectDevice()
      modifies this
      ensures Snapshot() == DisconnectSpec(old(Snapshot()))
      ensures Valid()
    {
      reconnectTimerPending := false;
      isReconnecting := false;
      handles := NoHandles;
      UpdateState(NoChange.(connectionState := Some(Disconnected), deviceName := Some(None),
                            reconnectAttempts := Some(0), voiceState := Some(Idle)));
      Emit(OnDisconnect);
    }

    method AttemptReconnect()
      modifies this
      ensures Snapshot() == AttemptReconnectSpec(old(Snapshot()))
      ensures old(Valid()) && old(state.reconnectAttempts) < MaxReconnectAttempts ==> Valid()
    {
      if !handles.device || isReconnecting {
        return;
      }
      isReconnecting := true;
      var attempt := state.reconnectAttempts + 1;
      UpdateState(NoChange.(connectionState := Some(Reconnecting), reconnectAttempts := Some(attempt)));
      reconnectTimerPending := true;
    }

    /** `handleDisconnection`, the `gattserverdisconnected` listener. */
    method HandleDisconnection()
      modifies this
      ensures Snapshot() == LinkLostSpec(old(Snapshot()))
      ensures old(Valid()) ==> Valid()
    {
      ghost var m := Snapshot();
      if ValidService(m) {
        LinkLostKeepsValid(m);
      }
      if isReconnecting {
        return;
      }
      UpdateState(NoChange.(connectionState := Some(Disconnected)));
      if state.reconnectAttempts < MaxReconnectAttempts {
        AttemptReconnect();
      } else {
        Emit(OnDisconnect);
        Emit(OnError("Device disconnected. Max reconnection attempts reached."));
      }
    }

    /** The callback the reconnect timer runs. */
    method ReconnectTimerFired(link: LinkSteps)
      requires reconnectTimerPending
      modifies this, encoder
      ensures Snapshot() == ReconnectFireSpec(old(Snapshot()), link)
      ensures old(Valid()) ==> Valid()
    {
      ghost var m := Snapshot();
      if ValidService(m) {
        ReconnectFireKeepsValid(m, link);
      }
      reconnectTimerPending := false;
      var outcome: Outcome;
      if !(handles.device && handles.deviceHasGatt) {
        outcome := Threw(PlainError("Device no longer available"));
      } else {
        outcome := LinkUp(link);
      }
      SettleReconnect(outcome);
    }

    /** The end of the timer callback, once the link attempt has settled. */
    method SettleReconnect(outcome: Outcome)
      modifies this
      ensures Snapshot() == AfterReconnectTry(Reply(old(Snapshot()), outcome))
    {
      if outcome.Done? {
        UpdateState(NoChange.(connectionState := Some(Connected), reconnectAttempts := Some(0)));
        isReconnecting := false;
      } else {
        isReconnecting := false;
        if state.reconnectAttempts < MaxReconnectAttempts {
          AttemptReconnect();
        } else {
          DisconnectDevice();
          Emit(OnError("Failed to reconnect after multiple attempts"));
        }
      }
    }
  }
}
