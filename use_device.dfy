/** The device hook: the application's view of the device, kept up to date
    by the handlers it registers with the Bluetooth service, plus the
    connect, disconnect and command actions it offers, which refuse to talk
    to a device that is not connected. */
module UseDevice {
  import opened Wrappers
  import Types
  import opened DeviceProtocol
  import opened Bluetooth

  /** The hook's state variables, plus the voice events it forwarded to its
      caller's `onVoiceEvent`. */
  datatype View = View(
    connectionState: Types.DeviceConnectionState,
    isLocked: bool,
    hasPhone: bool,
    batteryLevel: int,
    dialPosition: int,
    lastError: Option<string>,
    voiceState: VoiceState,
    forwarded: seq<VoiceEventPacket>)

  /** The first render's `useState` values. */
  const InitialView: View := View(Types.DeviceDisconnected, false, false, 100, 0, None, Idle, [])

  const NotConnected: string := "Device not connected"
  const NotSupported: string := "Web Bluetooth is not supported"

  // ---------------------------------------------------------------
  // The SYNC_STATE payload
  // ---------------------------------------------------------------

  /** `phaseMap[phase] ?? 0x00`: the phases get 0x00 to 0x08 in their listed
      order; a name outside the map falls back to 0x00. */
  function PhaseCode(phase: string): Byte {
    if phase == "PLANNING" then 0x00
    else if phase == "FOCUS" then 0x01
    else if phase == "BREAK" then 0x02
    else if phase == "ADMIN" then 0x03
    else if phase == "SHUTDOWN" then 0x04
    else if phase == "COMPLETED" then 0x05
    else if phase == "DEEP_WORK_1" then 0x06
    else if phase == "DEEP_WORK_2" then 0x07
    else if phase == "BUILD" then 0x08
    else 0x00
  }

  /** `x & 0xFF` on an integer number: `ToInt32` wraps modulo 2^32, a
      multiple of 256, so the low byte is the Euclidean remainder. */
  function LowByte(x: int): Byte {
    x % 256
  }

  /** `(x >> 8) & 0xFF`: the arithmetic shift is a floor division, and the
      2^32 wrap is again invisible in the byte kept. */
  function SecondByte(x: int): Byte {
    (x / 256) % 256
  }

  /** `[phase, timerLow, timerHigh, sessionCount, 0, 0, 0, 0]`. */
  function SyncPayload(phase: Types.Phase, timerSeconds: int, sessionCount: int): seq<int> {
    [PhaseCode(Types.PhaseName(phase)) as int, LowByte(timerSeconds) as int, SecondByte(timerSeconds) as int,
     LowByte(sessionCount) as int, 0, 0, 0, 0]
  }

  // ---------------------------------------------------------------
  // The registered handlers
  // ---------------------------------------------------------------

  /** The connection states the application knows: a reconnect shows as
      connecting. */
  function ShownConnection(c: ConnectionState): Types.DeviceConnectionState {
    match c
    case Connected => Types.DeviceConnected
    case Connecting => Types.DeviceConnecting
    case Reconnecting => Types.DeviceConnecting
    case Disconnected => Types.DeviceDisconnected
  }

  /** `syncFromBluetoothState`. */
  function SyncFrom(h: View, s: DeviceState): View {
    h.(connectionState := ShownConnection(s.connectionState),
       isLocked := s.lockState == LockLocked,
       hasPhone := s.phonePresence == PhonePresent,
       batteryLevel := s.batteryLevel,
       dialPosition := s.dialPosition,
       voiceState := s.voiceState)
  }

  /** The handlers the mount effect registers, as written: the dial handler
      adds the delta to the position the preceding `onStateChange` has
      already brought up to date. */
  function HandleNoticeAsWritten(h: View, n: Notice): View {
    match n
    case OnStateChange(s) => SyncFrom(h, s)
    case OnLockEngaged => h.(isLocked := true)
    case OnLockReleased => h.(isLocked := false)
    case OnPhonePlaced => h.(hasPhone := true)
    case OnPhoneRemoved => h.(hasPhone := false)
    case OnDialRotated(delta) => h.(dialPosition := h.dialPosition + delta)
    case OnVoiceEvent(vp) =>
      var h1 := match VoiceTarget(vp.event)
        case Some(v) => h.(voiceState := v)
        case None => h;
      h1.(forwarded := h1.forwarded + [vp])
    case OnError(message) => h.(lastError := Some(message), connectionState := Types.DeviceError)
    case OnDisconnect => h.(connectionState := Types.DeviceDisconnected, voiceState := Idle)
    case OnEvent(_) => h
    case OnButtonPressed => h
    case OnTimerComplete => h
  }

  /** The handlers with the dial handler leaving the position to
      `onStateChange`, which the service always calls first. */
  function HandleNotice(h: View, n: Notice): View {
    if n.OnDialRotated? then h else HandleNoticeAsWritten(h, n)
  }

  /** The handler calls a service operation made, in order. */
  function Replay(h: View, ns: seq<Notice>, asWritten: bool): View
    decreases |ns|
  {
    if |ns| == 0 then h
    else
      var h1 := if asWritten then HandleNoticeAsWritten(h, ns[0]) else HandleNotice(h, ns[0]);
      Replay(h1, ns[1..], asWritten)
  }

  /** The handler calls the service made between two of its states. */
  function NewNotices(before: Service, after: Service): seq<Notice> {
    if |before.notices| <= |after.notices| then after.notices[|before.notices|..] else []
  }

  /** The hook shows what the service's record says. */
  predicate Mirrors(h: View, s: DeviceState) {
    h.connectionState == ShownConnection(s.connectionState)
    && h.isLocked == (s.lockState == LockLocked)
    && h.hasPhone == (s.phonePresence == PhonePresent)
    && h.batteryLevel == s.batteryLevel
    && h.dialPosition == s.dialPosition
    && h.voiceState == s.voiceState
  }

  /** A handler call that leaves a hook mirroring `s` still mirroring it. */
  predicate Agrees(n: Notice, s: DeviceState) {
    match n
    case OnStateChange(s1) => s1 == s
    case OnLockEngaged => s.lockState == LockLocked
    case OnLockReleased => s.lockState != LockLocked
    case OnPhonePlaced => s.phonePresence == PhonePresent
    case OnPhoneRemoved => s.phonePresence != PhonePresent
    case OnDialRotated(_) => true
    case OnVoiceEvent(vp) => VoiceTarget(vp.event).None? || VoiceTarget(vp.event) == Some(s.voiceState)
    case OnError(_) => false
    case OnDisconnect => s.connectionState == Disconnected && s.voiceState == Idle
    case OnEvent(_) => true
    case OnButtonPressed => true
    case OnTimerComplete => true
  }

  /** Some call hands over `s`, and every later call agrees with it. */
  predicate Reported(ns: seq<Notice>, s: DeviceState) {
    exists k :: 0 <= k < |ns| && ns[k] == OnStateChange(s) && AgreeFrom(ns, k + 1, s)
  }

  predicate AgreeFrom(ns: seq<Notice>, k: nat, s: DeviceState) {
    forall j :: k <= j < |ns| ==> Agrees(ns[j], s)
  }

  // ---------------------------------------------------------------
  // Actions, as functions of the hook and the service
  // ---------------------------------------------------------------

  /** The hook and the service after an action, and how it settled. */
  datatype Both = Both(view: View, service: Service, outcome: Outcome)

  /** The guard of `lockPhone`, `unlockPhone` and `syncState`: refuse before
      touching the service unless the hook shows connected; otherwise the
      service's reply, with the hook having handled its calls. */
  function Guarded(h: View, m: Service, run: Reply): Both {
    if h.connectionState != Types.DeviceConnected then Both(h, m, Threw(PlainError(NotConnected)))
    else Both(Replay(h, NewNotices(m, run.service), false), run.service, run.outcome)
  }

  function LockPhoneSpec(h: View, m: Service, write: Step): Both {
    Guarded(h, m, CommandThenSpec(m, Command.LockPhone, write, NoChange.(lockState := Some(LockLocking))))
  }

  function UnlockPhoneSpec(h: View, m: Service, write: Step): Both {
    Guarded(h, m, CommandThenSpec(m, Command.UnlockPhone, write, NoChange.(lockState := Some(LockUnlocking))))
  }

  function SyncStateSpec(h: View, m: Service, timerSeconds: int, phase: Types.Phase, sessionCount: int, write: Step): Both {
    Guarded(h, m, SendCommandSpec(m, Command.SyncState, SyncPayload(phase, timerSeconds, sessionCount), write))
  }

  /** `connect`: without Web Bluetooth it only reports; otherwise it shows
      connecting with no error, lets the service try, and settles on the
      service's answer. The service settles every failure itself, so the
      hook's own `catch` is never reached. */
  function ConnectHookSpec(h: View, m: Service, supported: bool, pick: Pick, link: LinkSteps): Both {
    if !supported then Both(h.(lastError := Some(NotSupported), connectionState := Types.DeviceError), m, Done)
    else
      var h1 := h.(connectionState := Types.DeviceConnecting, lastError := None);
      var c := ConnectSpec(m, true, pick, link);
      var h2 := Replay(h1, NewNotices(m, c.service), false);
      Both(h2.(connectionState := if c.ok then Types.DeviceConnected else Types.DeviceDisconnected), c.service, Done)
  }

  /** `disconnect`: whatever the teardown reported, the hook ends
      disconnected, unlocked, without a phone and with voice idle. */
  function DisconnectHookSpec(h: View, m: Service): Both {
    var m1 := DisconnectSpec(m);
    var h1 := Replay(h, NewNotices(m, m1), false);
    Both(h1.(connectionState := Types.DeviceDisconnected, isLocked := false, hasPhone := false, voiceState := Idle), m1, Done)
  }

  /** `resetVoice`. */
  function ResetVoiceHookSpec(h: View, m: Service): Both {
    var m1 := ResetVoiceSpec(m);
    Both(Replay(h, NewNotices(m, m1), false).(voiceState := Idle), m1, Done)
  }

  // ---------------------------------------------------------------
  // Properties
  // ---------------------------------------------------------------

  /** The phases get the codes 0x00 to 0x08 in their listed order, so the
      nine codes are distinct; any other name falls back to 0x00. */
  lemma PhaseCodes(p: Types.Phase, q: Types.Phase, other: string)
    ensures forall i :: 0 <= i < |Types.AllPhases| ==> PhaseCode(Types.PhaseName(Types.AllPhases[i])) == i
    ensures PhaseCode(Types.PhaseName(p)) == PhaseCode(Types.PhaseName(q)) ==> p == q
    ensures (forall r: Types.Phase :: Types.PhaseName(r) != other) ==> PhaseCode(other) == 0
  {
    if (forall r: Types.Phase :: Types.PhaseName(r) != other) {
      assert Types.PhaseName(Types.Planning) != other && Types.PhaseName(Types.Focus) != other;
      assert Types.PhaseName(Types.Break) != other && Types.PhaseName(Types.Admin) != other;
      assert Types.PhaseName(Types.Shutdown) != other && Types.PhaseName(Types.Completed) != other;
      assert Types.PhaseName(Types.DeepWork1) != other && Types.PhaseName(Types.DeepWork2) != other;
      assert Types.PhaseName(Types.Build) != other;
    }
  }

  /** The payload is eight bytes: the phase code, the timer's low and high
      bytes, which recompose the count modulo 65536, the session count's low
      byte and four reserved zeros. */
  lemma SyncPayloadLayout(phase: Types.Phase, t: int, sessionCount: int)
    ensures var p := SyncPayload(phase, t, sessionCount);
      |p| == 8 && p[0] == PhaseCode(Types.PhaseName(phase)) as int && p[3] == sessionCount % 256
      && p[4..] == [0, 0, 0, 0]
      && (forall i :: 0 <= i < 8 ==> 0 <= p[i] < 256)
      && p[1] + 256 * p[2] == t % 65536
    ensures 0 <= t < 65536 ==> U16(Stored(SyncPayload(phase, t, sessionCount)), 1) == t
  {
    var lo, hi := t % 256, (t / 256) % 256;
    var q := t / 256;
    assert t == q * 256 + lo;
    assert q == (q / 256) * 256 + hi;
    assert t == (q / 256) * 65536 + (lo + 256 * hi);
    assert 0 <= lo + 256 * hi < 65536;
    ModOfSplit(t, q / 256, lo + 256 * hi);
    var p := SyncPayload(phase, t, sessionCount);
    if 0 <= t < 65536 {
      var st := Stored(p);
      assert st[1] == lo && st[2] == hi;
    }
  }

  lemma ModOfSplit(t: int, k: int, r: int)
    requires t == k * 65536 + r && 0 <= r < 65536
    ensures t % 65536 == r
  {
  }

  /** `syncFromBluetoothState` shows the connection as the application knows
      it, a lock only once it is engaged (locking is not locked) and a phone
      only when present; afterwards the hook mirrors the record. */
  lemma SyncFromMapping(h: View, s: DeviceState)
    ensures Mirrors(SyncFrom(h, s), s)
    ensures s.connectionState == Connected <==> SyncFrom(h, s).connectionState == Types.DeviceConnected
    ensures s.connectionState in {Connecting, Reconnecting} <==> SyncFrom(h, s).connectionState == Types.DeviceConnecting
    ensures s.connectionState == Disconnected <==> SyncFrom(h, s).connectionState == Types.DeviceDisconnected
    ensures SyncFrom(h, s).connectionState != Types.DeviceError
    ensures s.lockState == LockLocking ==> !SyncFrom(h, s).isLocked
    ensures SyncFrom(h, s).lastError == h.lastError
  {
  }

  lemma {:induction false} ReplayAppend(h: View, a: seq<Notice>, b: seq<Notice>, asWritten: bool)
    ensures Replay(h, a + b, asWritten) == Replay(Replay(h, a, asWritten), b, asWritten)
    decreases |a|
  {
    if |a| == 0 {
      assert a + b == b;
    } else {
      assert (a + b)[0] == a[0];
      assert (a + b)[1..] == a[1..] + b;
      var h1 := if asWritten then HandleNoticeAsWritten(h, a[0]) else HandleNotice(h, a[0]);
      ReplayAppend(h1, a[1..], b, asWritten);
    }
  }

  /** The handlers as written and corrected agree on every run of calls
      without a dial turn. */
  lemma {:induction false} ReplayWithoutDial(h: View, ns: seq<Notice>)
    requires forall j :: 0 <= j < |ns| ==> !ns[j].OnDialRotated?
    ensures Replay(h, ns, true) == Replay(h, ns, false)
    decreases |ns|
  {
    if |ns| > 0 {
      assert HandleNoticeAsWritten(h, ns[0]) == HandleNotice(h, ns[0]);
      assert forall j :: 0 <= j < |ns[1..]| ==> ns[1..][j] == ns[j + 1];
      ReplayWithoutDial(HandleNoticeAsWritten(h, ns[0]), ns[1..]);
    }
  }

  lemma ReplaySingle(h: View, n: Notice)
    ensures Replay(h, [n], false) == HandleNotice(h, n)
  {
    assert [n][1..] == [];
  }

  /** Calls that agree with a mirrored record keep the hook mirroring it. */
  lemma {:induction false} AgreeingKeepsMirror(h: View, ns: seq<Notice>, s: DeviceState)
    requires Mirrors(h, s) && AgreeFrom(ns, 0, s)
    ensures Mirrors(Replay(h, ns, false), s)
    decreases |ns|
  {
    if |ns| > 0 {
      assert Agrees(ns[0], s);
      var h1 := HandleNotice(h, ns[0]);
      assert Mirrors(h1, s);
      assert AgreeFrom(ns[1..], 0, s) by {
        forall j | 0 <= j < |ns[1..]| ensures Agrees(ns[1..][j], s) {
          assert ns[1..][j] == ns[j + 1];
        }
      }
      AgreeingKeepsMirror(h1, ns[1..], s);
    }
  }

  /** Whatever the hook showed before, once the service has handed over `s`
      and made only agreeing calls since, the hook mirrors `s`. */
  lemma ReportedMirrors(h: View, ns: seq<Notice>, s: DeviceState)
    requires Reported(ns, s)
    ensures Mirrors(Replay(h, ns, false), s)
  {
    var k :| 0 <= k < |ns| && ns[k] == OnStateChange(s) && AgreeFrom(ns, k + 1, s);
    var front, tail := ns[..k + 1], ns[k + 1..];
    assert ns == front + tail;
    ReplayAppend(h, front, tail, false);
    assert front == ns[..k] + [OnStateChange(s)];
    ReplayAppend(h, ns[..k], [OnStateChange(s)], false);
    var h1 := Replay(h, ns[..k], false);
    assert [OnStateChange(s)][1..] == [];
    assert Replay(h1, [OnStateChange(s)], false) == SyncFrom(h1, s);
    SyncFromMapping(h1, s);
    assert AgreeFrom(tail, 0, s) by {
      forall j | 0 <= j < |tail| ensures Agrees(tail[j], s) {
        assert tail[j] == ns[k + 1 + j];
      }
    }
    AgreeingKeepsMirror(SyncFrom(h1, s), tail, s);
  }

  /** An update is reported to `onStateChange` right away. */
  lemma UpdateReports(m: Service, p: Patch)
    ensures NewNotices(m, Update(m, p)) == [OnStateChange(Update(m, p).state)]
  {
  }

  /** `r` keeps `m`'s calls in front, and either keeps the record and makes
      only agreeing calls, or first reports the updated record and then makes
      only agreeing calls. */
  predicate KeepsOrReports(m: Service, r: Service) {
    |m.notices| <= |r.notices| && r.notices[..|m.notices|] == m.notices
    && ((r.state == m.state && AgreeFrom(r.notices, |m.notices|, r.state))
        || (|m.notices| < |r.notices| && r.notices[|m.notices|] == OnStateChange(r.state)
            && AgreeFrom(r.notices, |m.notices| + 1, r.state)))
  }

  /** Every branch of `Dispatch` other than a device error either leaves
      the record alone and makes only agreeing calls, or reports the updated
      record first and then makes only agreeing calls. */
  lemma DispatchAgrees(m: Service, p: EventPacket)
    requires p.event != EvError
    ensures KeepsOrReports(m, Dispatch(m, p))
  {
    var e := p.event;
    if e == EvDialRotated {
      var delta := DialDelta(p.payload);
      UpdateThenCall(m, NoChange.(dialPosition := Some(m.state.dialPosition + delta)), OnDialRotated(delta));
    } else if e == EvPhonePlaced {
      UpdateThenCall(m, NoChange.(phonePresence := Some(PhonePresent)), OnPhonePlaced);
    } else if e == EvPhoneRemoved {
      UpdateThenCall(m, NoChange.(phonePresence := Some(PhoneAbsent)), OnPhoneRemoved);
    } else if e == EvLockEngaged {
      UpdateThenCall(m, NoChange.(lockState := Some(LockLocked)), OnLockEngaged);
    } else if e == EvLockReleased {
      UpdateThenCall(m, NoChange.(lockState := Some(LockUnlocked)), OnLockReleased);
    } else if e == EvButtonPressed {
      CallOnly(m, OnButtonPressed);
    } else if e == EvTimerComplete {
      UpdateThenCall(m, NoChange.(timerState := Some(TimerCompleted), timerRemainingSeconds := Some(0)), OnTimerComplete);
    } else if e == EvBatteryChanged {
      if |p.payload| > 0 {
        UpdateOnly(m, NoChange.(batteryLevel := Some(p.payload[0])));
      } else {
        NoCall(m);
      }
    } else {
      NoCall(m);
    }
  }

  /** An update followed by a call agreeing with the updated record reports
      it and then agrees. */
  lemma UpdateThenCall(m: Service, patch: Patch, n: Notice)
    requires Agrees(n, Apply(m.state, patch))
    ensures KeepsOrReports(m, Notify(Update(m, patch), n))
  {
    var r := Notify(Update(m, patch), n);
    assert r.notices == m.notices + [OnStateChange(r.state), n];
    assert r.notices[..|m.notices|] == m.notices;
  }

  /** An update on its own reports the updated record. */
  lemma UpdateOnly(m: Service, patch: Patch)
    ensures KeepsOrReports(m, Update(m, patch))
  {
    var r := Update(m, patch);
    assert r.notices[..|m.notices|] == m.notices;
  }

  /** A call agreeing with the unchanged record. */
  lemma CallOnly(m: Service, n: Notice)
    requires Agrees(n, m.state)
    ensures KeepsOrReports(m, Notify(m, n))
  {
    var r := Notify(m, n);
    assert r.notices[..|m.notices|] == m.notices;
  }

  lemma NoCall(m: Service)
    ensures KeepsOrReports(m, m)
  {
    assert m.notices[..|m.notices|] == m.notices;
  }

  /** Every decoded event other than a device error leaves the service's
      record reported, with only agreeing calls after it. */
  lemma EventReported(m: Service, data: seq<Byte>, now: int)
    requires EventFromFrame(data, now).Success? && EventFromFrame(data, now).value.event != EvError
    ensures Reported(NewNotices(m, EventSpec(m, Some(data), now)), EventSpec(m, Some(data), now).state)
  {
    var p := EventFromFrame(data, now).value;
    var m0 := Update(m, NoChange.(lastEventTime := Some(now)));
    var m1 := Notify(m0, OnEvent(p));
    var r := Dispatch(m1, p);
    assert EventSpec(m, Some(data), now) == r;
    assert m1.notices == m.notices + [OnStateChange(m0.state), OnEvent(p)];
    DispatchAgrees(m1, p);
    assert NewNotices(m, r) == r.notices[|m.notices|..];
    EventNoticesReported(m.notices, r.notices, m1.state, p, r.state);
  }

  /** After the report of the stamped record and the packet, either nothing
      more changed the record or a later report hands over the new one. */
  lemma EventNoticesReported(before: seq<Notice>, ns: seq<Notice>, s0: DeviceState, p: EventPacket, s: DeviceState)
    requires |before| + 2 <= |ns| && ns[..|before| + 2] == before + [OnStateChange(s0), OnEvent(p)]
    requires (s == s0 && AgreeFrom(ns, |before| + 2, s))
      || (|before| + 2 < |ns| && ns[|before| + 2] == OnStateChange(s) && AgreeFrom(ns, |before| + 3, s))
    ensures Reported(ns[|before|..], s)
  {
    var n := |before|;
    assert ns[n] == ns[..n + 2][n] && ns[n + 1] == ns[..n + 2][n + 1];
    if s == s0 && AgreeFrom(ns, n + 2, s) {
      ReportedSuffix(ns, n, n, s);
    } else {
      ReportedSuffix(ns, n, n + 2, s);
    }
  }

  /** A report of `s` at `k` with only agreeing calls after it is seen by
      whoever starts listening at `n`. */
  lemma ReportedSuffix(ns: seq<Notice>, n: nat, k: nat, s: DeviceState)
    requires n <= k < |ns| && ns[k] == OnStateChange(s) && AgreeFrom(ns, k + 1, s)
    ensures Reported(ns[n..], s)
  {
    var t := ns[n..];
    assert t[k - n] == ns[k];
    forall j | k - n + 1 <= j < |t| ensures Agrees(t[j], s) {
      assert t[j] == ns[n + j];
    }
    assert t[k - n] == OnStateChange(s) && AgreeFrom(t, k - n + 1, s);
  }

  /** A state report that decodes is mirrored by the hook. */
  lemma StateReportMirrored(h: View, m: Service, data: seq<Byte>)
    requires StateFromFrame(data).Success?
    ensures Mirrors(Replay(h, NewNotices(m, StateSpec(m, data)), false), StateSpec(m, data).state)
  {
    var r := StateSpec(m, data);
    var ns := NewNotices(m, r);
    assert ns == [OnStateChange(r.state)];
    assert ns[0] == OnStateChange(r.state) && AgreeFrom(ns, 0 + 1, r.state);
    assert Reported(ns, r.state);
    ReportedMirrors(h, ns, r.state);
  }

  /** A voice event that changes the voice state is mirrored, and every
      decoded voice event is forwarded to the caller. */
  lemma VoiceMirrored(h: View, m: Service, data: seq<Byte>, now: int)
    requires VoiceFromFrame(data, now).Success?
    ensures var vp := VoiceFromFrame(data, now).value;
      var r := VoiceSpec(m, Some(data), now);
      var g := Replay(h, NewNotices(m, r), false);
      g.forwarded == h.forwarded + [vp]
      && (VoiceTarget(vp.event).Some? ==> Mirrors(g, r.state) && g.voiceState == VoiceTarget(vp.event).value)
  {
    var vp := VoiceFromFrame(data, now).value;
    var r := VoiceSpec(m, Some(data), now);
    var ns := NewNotices(m, r);
    if VoiceTarget(vp.event).Some? {
      var m1 := Update(m, NoChange.(voiceState := Some(VoiceTarget(vp.event).value)));
      assert ns == [OnStateChange(m1.state), OnVoiceEvent(vp)];
      assert r.state == m1.state;
      assert ns[0] == OnStateChange(r.state) && AgreeFrom(ns, 0 + 1, r.state);
      assert Reported(ns, r.state);
      ReportedMirrors(h, ns, r.state);
      ReplayAppend(h, [OnStateChange(m1.state)], [OnVoiceEvent(vp)], false);
      assert [OnStateChange(m1.state)][1..] == [] && [OnVoiceEvent(vp)][1..] == [];
    } else {
      assert ns == [OnVoiceEvent(vp)];
      assert ns[1..] == [];
    }
  }

  /** Every decoded event except a device error leaves the hook mirroring
      the service. */
  lemma EventKeepsMirror(h: View, m: Service, data: seq<Byte>, now: int)
    requires EventFromFrame(data, now).Success? && EventFromFrame(data, now).value.event != EvError
    ensures var r := EventSpec(m, Some(data), now);
      Mirrors(Replay(h, NewNotices(m, r), false), r.state)
  {
    EventReported(m, data, now);
    ReportedMirrors(h, NewNotices(m, EventSpec(m, Some(data), now)), EventSpec(m, Some(data), now).state);
  }

  /** As written, a dial event moves the hook's dial by twice the delta the
      service records. */
  lemma DialCountedTwice(h: View, m: Service, data: seq<Byte>, now: int)
    requires EventFromFrame(data, now).Success? && EventFromFrame(data, now).value.event == EvDialRotated
    ensures var delta := DialDelta(EventFromFrame(data, now).value.payload);
      var r := EventSpec(m, Some(data), now);
      r.state.dialPosition == m.state.dialPosition + delta
      && Replay(h, NewNotices(m, r), true).dialPosition == m.state.dialPosition + 2 * delta
  {
    var p := EventFromFrame(data, now).value;
    var delta := DialDelta(p.payload);
    var m0 := Update(m, NoChange.(lastEventTime := Some(now)));
    var m1 := Notify(m0, OnEvent(p));
    var m2 := Update(m1, NoChange.(dialPosition := Some(m1.state.dialPosition + delta)));
    var r := EventSpec(m, Some(data), now);
    assert r == Notify(m2, OnDialRotated(delta));
    var ns := NewNotices(m, r);
    assert ns == [OnStateChange(m0.state), OnEvent(p), OnStateChange(m2.state), OnDialRotated(delta)];
    ReplayAppend(h, ns[..3], [OnDialRotated(delta)], true);
    assert ns[..3] + [OnDialRotated(delta)] == ns;
    ReplayAppend(h, ns[..2], [OnStateChange(m2.state)], true);
    assert ns[..2] + [OnStateChange(m2.state)] == ns[..3];
    assert [OnStateChange(m2.state)][1..] == [] && [OnDialRotated(delta)][1..] == [];
  }

  /** One step of the dial, from the rest position: the device records 1,
      the hook as written shows 2. */
  lemma DialStepShownAsTwo(h: View, m: Service, now: int)
    requires m.state.dialPosition == 0
    ensures var r := EventSpec(m, Some([0xBB, 0x10, 0x00, 0x02, 0x01, 0x00]), now);
      r.state.dialPosition == 1 && Replay(h, NewNotices(m, r), true).dialPosition == 2
  {
    var data: seq<Byte> := [0xBB, 0x10, 0x00, 0x02, 0x01, 0x00];
    assert EventFromFrame(data, now).value.payload == [0x01, 0x00];
    DialCountedTwice(h, m, data, now);
  }

  /** With the dial left to `onStateChange`, a dial event shows exactly the
      position the service records. */
  lemma DialShownOnce(h: View, m: Service, data: seq<Byte>, now: int)
    requires EventFromFrame(data, now).Success? && EventFromFrame(data, now).value.event == EvDialRotated
    ensures var r := EventSpec(m, Some(data), now);
      Replay(h, NewNotices(m, r), false).dialPosition == r.state.dialPosition
      == m.state.dialPosition + DialDelta(EventFromFrame(data, now).value.payload)
  {
    EventKeepsMirror(h, m, data, now);
    DialCountedTwice(h, m, data, now);
  }

  /** Unless the hook shows connected, the three commands throw "Device not
      connected" and leave the service, and so the frames sent, untouched;
      when it does, the service's own reply stands. */
  lemma GuardsRefuse(h: View, m: Service, write: Step, t: int, phase: Types.Phase, sessionCount: int)
    ensures h.connectionState != Types.DeviceConnected ==>
      LockPhoneSpec(h, m, write) == Both(h, m, Threw(PlainError(NotConnected)))
      && UnlockPhoneSpec(h, m, write) == Both(h, m, Threw(PlainError(NotConnected)))
      && SyncStateSpec(h, m, t, phase, sessionCount, write) == Both(h, m, Threw(PlainError(NotConnected)))
    ensures h.connectionState == Types.DeviceConnected ==>
      var s := SyncStateSpec(h, m, t, phase, sessionCount, write);
      var r := SendCommandSpec(m, Command.SyncState, SyncPayload(phase, t, sessionCount), write);
      s.service == r.service && s.outcome == r.outcome
      && (m.handles.command ==> s.service.sent == m.sent + [CommandFrame(Command.SyncState, m.sequence % 256, SyncPayload(phase, t, sessionCount))])
  {
  }

  /** A successful lock request shows the device locking, which the hook
      does not count as locked. */
  lemma LockingIsNotLocked(h: View, m: Service)
    requires h.connectionState == Types.DeviceConnected && m.handles.command
    ensures var b := LockPhoneSpec(h, m, Ok);
      b.outcome == Done && b.service.state.lockState == LockLocking && !b.view.isLocked
      && Mirrors(b.view, b.service.state)
  {
    var r := SendCommandSpec(m, Command.LockPhone, [], Ok);
    var m2 := Update(r.service, NoChange.(lockState := Some(LockLocking)));
    assert CommandThenSpec(m, Command.LockPhone, Ok, NoChange.(lockState := Some(LockLocking))) == Reply(m2, Done);
    assert NewNotices(m, m2) == [OnStateChange(m2.state)];
    ReplaySingle(h, OnStateChange(m2.state));
    SyncFromMapping(h, m2.state);
  }

  /** `connect`: without Web Bluetooth the hook reports an error and the
      service is not asked; otherwise the hook ends connected exactly when
      the service answered `true`, and disconnected when it answered
      `false`. */
  lemma ConnectSettles(h: View, m: Service, supported: bool, pick: Pick, link: LinkSteps)
    ensures !supported ==> (ConnectHookSpec(h, m, supported, pick, link)
      == Both(h.(lastError := Some(NotSupported), connectionState := Types.DeviceError), m, Done))
    ensures supported ==>
      var b := ConnectHookSpec(h, m, supported, pick, link);
      var c := ConnectSpec(m, true, pick, link);
      b.service == c.service
      && (c.ok ==> b.view.connectionState == Types.DeviceConnected)
      && (!c.ok ==> b.view.connectionState == Types.DeviceDisconnected)
  {
  }

  /** A cancelled chooser ends disconnected with no error shown. */
  lemma CancelShowsNoError(h: View, m: Service, link: LinkSteps, before: string, after: string)
    requires m.state.connectionState != Connected
    ensures var b := ConnectHookSpec(h, m, true, PickFailed(JsError("NotFoundError", before + "cancelled" + after)), link);
      b.view.connectionState == Types.DeviceDisconnected && b.view.lastError == None
  {
    var pick := PickFailed(JsError("NotFoundError", before + "cancelled" + after));
    CancelIsSilent(m, pick, link, before, after);
    var c := ConnectSpec(m, true, pick, link);
    var ns := NewNotices(m, c.service);
    var s1 := m.state.(connectionState := Connecting, reconnectAttempts := 0);
    var s2 := m.state.(connectionState := Disconnected, reconnectAttempts := 0);
    assert ns == [OnStateChange(s1)] + [OnStateChange(s2)];
    var h1 := h.(connectionState := Types.DeviceConnecting, lastError := None);
    ReplayAppend(h1, [OnStateChange(s1)], [OnStateChange(s2)], false);
    ReplaySingle(h1, OnStateChange(s1));
    ReplaySingle(SyncFrom(h1, s1), OnStateChange(s2));
  }

  /** Any other failed choice ends disconnected, showing the service's
      "Connection failed" message. */
  lemma FailureShowsError(h: View, m: Service, e: JsError, link: LinkSteps)
    requires m.state.connectionState != Connected && !IsCancel(e.message)
    ensures var b := ConnectHookSpec(h, m, true, PickFailed(e), link);
      b.view.connectionState == Types.DeviceDisconnected
      && b.view.lastError == Some("Connection failed: " + e.message)
  {
    var m1 := Update(m, NoChange.(connectionState := Some(Connecting), reconnectAttempts := Some(0)));
    var message := "Connection failed: " + e.message;
    var m2 := Notify(m1, OnError(message));
    var m3 := Update(m2, NoChange.(connectionState := Some(Disconnected)));
    assert ConnectSpec(m, true, PickFailed(e), link) == Connection(m3, false);
    var ns := NewNotices(m, m3);
    assert ns == [OnStateChange(m1.state), OnError(message)] + [OnStateChange(m3.state)];
    assert [OnStateChange(m1.state), OnError(message)] == [OnStateChange(m1.state)] + [OnError(message)];
    var h1 := h.(connectionState := Types.DeviceConnecting, lastError := None);
    var h2 := SyncFrom(h1, m1.state);
    var h3 := HandleNotice(h2, OnError(message));
    ReplayAppend(h1, [OnStateChange(m1.state), OnError(message)], [OnStateChange(m3.state)], false);
    ReplayAppend(h1, [OnStateChange(m1.state)], [OnError(message)], false);
    ReplaySingle(h1, OnStateChange(m1.state));
    ReplaySingle(h2, OnError(message));
    ReplaySingle(h3, OnStateChange(m3.state));
  }

  /** `disconnect` always ends disconnected, unlocked, without a phone and
      with voice idle, and the service is torn down. */
  lemma DisconnectEnds(h: View, m: Service)
    ensures var b := DisconnectHookSpec(h, m);
      b.view.connectionState == Types.DeviceDisconnected && !b.view.isLocked && !b.view.hasPhone
      && b.view.voiceState == Idle && b.service == DisconnectSpec(m)
      && b.service.state.connectionState == Disconnected && b.service.handles == NoHandles
  {
  }

  /** `resetVoice` ends idle on both sides and keeps the hook mirroring. */
  lemma ResetVoiceMirrors(h: View, m: Service)
    ensures var b := ResetVoiceHookSpec(h, m);
      b.view.voiceState == Idle && b.service.state.voiceState == Idle && Mirrors(b.view, b.service.state)
  {
    var m1 := ResetVoiceSpec(m);
    var ns := NewNotices(m, m1);
    assert ns == [OnStateChange(m1.state)];
    assert ns[0] == OnStateChange(m1.state) && AgreeFrom(ns, 1, m1.state);
    ReportedMirrors(h, ns, m1.state);
  }

  // ---------------------------------------------------------------
  // The hook's state variables, updated through their setters
  // ---------------------------------------------------------------

  class DeviceHook {
    var connectionState: Types.DeviceConnectionState
    var isLocked: bool
    var hasPhone: bool
    var batteryLevel: int
    var dialPosition: int
    var lastError: Option<string>
    var voiceState: VoiceState
    var forwarded: seq<VoiceEventPacket>
    /** The module-level Bluetooth service the hook drives. */
    const service: BluetoothService

    function Snapshot(): View
      reads this
    {
      View(connectionState, isLocked, hasPhone, batteryLevel, dialPosition, lastError, voiceState, forwarded)
    }

    constructor (service: BluetoothService)
      ensures Snapshot() == InitialView && this.service == service
    {
      connectionState := Types.DeviceDisconnected;
      isLocked := false;
      hasPhone := false;
      batteryLevel := 100;
      dialPosition := 0;
      lastError := None;
      voiceState := Idle;
      forwarded := [];
      this.service := service;
    }

    method Sync(s: DeviceState)
      modifies this
      ensures Snapshot() == SyncFrom(old(Snapshot()), s)
    {
      connectionState := ShownConnection(s.connectionState);
      isLocked := s.lockState == LockLocked;
      hasPhone := s.phonePresence == PhonePresent;
      batteryLevel := s.batteryLevel;
      dialPosition := s.dialPosition;
      voiceState := s.voiceState;
    }

    /** The mount effect, after registering the handlers: show the
        service's current record. */
    method Mount()
      modifies this
      ensures Snapshot() == SyncFrom(old(Snapshot()), service.Snapshot().state)
    {
      var s := service.GetConnectionState();
      Sync(s);
    }

    /** One call of a registered handler: as written (`asWritten`), a dial
        turn adds its delta on top of the position the preceding state
        report already showed; corrected, it leaves the position alone. */
    method Handle(n: Notice, asWritten: bool)
      modifies this
      ensures Snapshot() == (if asWritten then HandleNoticeAsWritten(old(Snapshot()), n) else HandleNotice(old(Snapshot()), n))
    {
      match n {
        case OnStateChange(s) => Sync(s);
        case OnLockEngaged => isLocked := true;
        case OnLockReleased => isLocked := false;
        case OnPhonePlaced => hasPhone := true;
        case OnPhoneRemoved => hasPhone := false;
        case OnDialRotated(delta) =>
          if asWritten {
            dialPosition := dialPosition + delta;
          }
        case OnVoiceEvent(vp) =>
          var target := VoiceTarget(vp.event);
          if target.Some? {
            voiceState := target.value;
          }
          forwarded := forwarded + [vp];
        case OnError(message) =>
          lastError := Some(message);
          connectionState := Types.DeviceError;
        case OnDisconnect =>
          connectionState := Types.DeviceDisconnected;
          voiceState := Idle;
        case OnEvent(_) =>
        case OnButtonPressed =>
        case OnTimerComplete =>
      }
    }

    /** The handler calls the service has made since it held `from` of
        them, taken in order, with the handlers as written or corrected. */
    method HandleSince(from: nat, asWritten: bool)
      modifies this
      ensures from <= |service.notices| ==> Snapshot() == Replay(old(Snapshot()), service.notices[from..], asWritten)
      ensures from > |service.notices| ==> Snapshot() == old(Snapshot())
    {
      var ns := if from <= |service.notices| then service.notices[from..] else [];
      var i := 0;
      while i < |ns|
        invariant 0 <= i <= |ns|
        invariant Replay(old(Snapshot()), ns, asWritten) == Replay(Snapshot(), ns[i..], asWritten)
      {
        assert ns[i..][1..] == ns[i + 1..];
        Handle(ns[i], asWritten);
        i := i + 1;
      }
    }

    method LockPhone(write: Step) returns (outcome: Outcome)
      modifies this, service, service.encoder
      ensures Both(Snapshot(), service.Snapshot(), outcome) == LockPhoneSpec(old(Snapshot()), old(service.Snapshot()), write)
    {
      if connectionState != Types.DeviceConnected {
        return Threw(PlainError(NotConnected));
      }
      var from := |service.notices|;
      outcome := service.LockPhone(write);
      HandleSince(from, false);
    }

    method UnlockPhone(write: Step) returns (outcome: Outcome)
      modifies this, service, service.encoder
      ensures Both(Snapshot(), service.Snapshot(), outcome) == UnlockPhoneSpec(old(Snapshot()), old(service.Snapshot()), write)
    {
      if connectionState != Types.DeviceConnected {
        return Threw(PlainError(NotConnected));
      }
      var from := |service.notices|;
      outcome := service.UnlockPhone(write);
      HandleSince(from, false);
    }

    method SyncState(timerSeconds: int, phase: Types.Phase, sessionCount: int, write: Step) returns (outcome: Outcome)
      modifies this, service, service.encoder
      ensures Both(Snapshot(), service.Snapshot(), outcome)
           == SyncStateSpec(old(Snapshot()), old(service.Snapshot()), timerSeconds, phase, sessionCount, write)
    {
      if connectionState != Types.DeviceConnected {
        return Threw(PlainError(NotConnected));
      }
      var from := |service.notices|;
      outcome := service.SendCommand(Command.SyncState, SyncPayload(phase, timerSeconds, sessionCount), write);
      HandleSince(from, false);
    }

    method Connect(supported: bool, pick: Pick, link: LinkSteps)
      modifies this, service, service.encoder
      ensures Both(Snapshot(), service.Snapshot(), Done) == ConnectHookSpec(old(Snapshot()), old(service.Snapshot()), supported, pick, link)
    {
      if !supported {
        lastError := Some(NotSupported);
        connectionState := Types.DeviceError;
        return;
      }
      connectionState := Types.DeviceConnecting;
      lastError := None;
      var from := |service.notices|;
      var ok := service.ConnectDevice(true, pick, link);
      HandleSince(from, false);
      connectionState := if ok then Types.DeviceConnected else Types.DeviceDisconnected;
    }

    method Disconnect()
      modifies this, service
      ensures Both(Snapshot(), service.Snapshot(), Done) == DisconnectHookSpec(old(Snapshot()), old(service.Snapshot()))
    {
      var from := |service.notices|;
      service.DisconnectDevice();
      HandleSince(from, false);
      connectionState := Types.DeviceDisconnected;
      isLocked := false;
      hasPhone := false;
      voiceState := Idle;
    }

    method ResetVoice()
      modifies this, service
      ensures Both(Snapshot(), service.Snapshot(), Done) == ResetVoiceHookSpec(old(Snapshot()), old(service.Snapshot()))
    {
      var from := |service.notices|;
      service.ResetVoiceState();
      HandleSince(from, false);
      voiceState := Idle;
    }
  }
}
