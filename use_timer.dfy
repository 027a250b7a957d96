/** The timer hook: it mirrors the worker's messages into two pieces of
    React state, `seconds` and `isRunning`, posts commands to the worker,
    and formats a count as "M:SS". */
module UseTimer {
  import opened Wrappers
  import JsText
  import opened TimerWorker

  /** `formatTime` of the hook: whole minutes, unpadded and without an hours
      field, then the seconds padded to two digits. */
  function FormatTime(seconds: int): string {
    // Dafny's `/` by a positive divisor already is `Math.floor` of the quotient
    JsText.IntToString(seconds / 60) + ":" + JsText.PadStart2(JsText.IntToString(JsText.JsRem(seconds, 60)))
  }

  /** The hook's state: the two state variables, whether `workerRef` holds a
      worker, the messages posted to it, and the callback calls made. */
  datatype Hook = Hook(
    seconds: int,
    isRunning: bool,
    workerAttached: bool,
    posted: seq<Message>,
    tickCalls: seq<int>,
    completeCalls: nat)

  /** The first render: `useState(initialSeconds)`, no worker yet. */
  function Initial(initialSeconds: int): Hook {
    Hook(initialSeconds, false, false, [], [], 0)
  }

  /** The mount effect: create the worker and post the initial count. */
  function MountSpec(h: Hook, initialSeconds: int): Hook {
    h.(workerAttached := true, posted := h.posted + [Set(Some(initialSeconds))])
  }

  /** The unmount clean-up terminates and drops the worker. */
  function UnmountSpec(h: Hook): Hook {
    h.(workerAttached := false)
  }

  /** The worker's `onmessage` handler. */
  function ReceiveSpec(h: Hook, r: Response): Hook {
    match r.kind
    case TickMsg => h.(seconds := r.seconds, tickCalls := h.tickCalls + [r.seconds])
    case Complete => h.(seconds := 0, isRunning := false, completeCalls := h.completeCalls + 1)
    case Started => h.(seconds := r.seconds, isRunning := true)
    case Resumed => h.(seconds := r.seconds, isRunning := true)
    case Paused => h.(seconds := r.seconds, isRunning := false)
    case Stopped => h.(seconds := r.seconds, isRunning := false)
  }

  /** The worker's responses handled in order. */
  function DeliverAll(h: Hook, rs: seq<Response>): Hook
    decreases |rs|
  {
    if |rs| == 0 then h else DeliverAll(ReceiveSpec(h, rs[0]), rs[1..])
  }

  /** The effect that applies an external change of `initialSeconds`, which
      it does only while the countdown is not running. */
  function SyncInitialSpec(h: Hook, initialSeconds: int): Hook {
    if h.workerAttached && !h.isRunning then
      h.(posted := h.posted + [Set(Some(initialSeconds))], seconds := initialSeconds)
    else h
  }

  function HookStartSpec(h: Hook): Hook {
    if h.workerAttached then h.(posted := h.posted + [Start(Some(h.seconds))]) else h
  }

  function HookPauseSpec(h: Hook): Hook {
    if h.workerAttached then h.(posted := h.posted + [Pause]) else h
  }

  /** `reset(newSeconds)`: stop the worker, set it to the target (by default
      `initialSeconds`) and show the target, stopped. */
  function ResetSpec(h: Hook, newSeconds: Option<int>, initialSeconds: int): Hook {
    var target := newSeconds.GetOr(initialSeconds);
    if h.workerAttached then
      h.(posted := h.posted + [Stop, Set(Some(target))], seconds := target, isRunning := false)
    else h
  }

  /** The hook shows what the worker holds. */
  predicate Mirrors(h: Hook, w: Worker) {
    h.seconds == w.remainingSeconds && h.isRunning == w.isRunning
  }

  // ---------------------------------------------------------------
  // Properties
  // ---------------------------------------------------------------

  /** For a non-negative count the display is minutes, ':' and the
      padded remainder, and the two fields recompose the count. */
  lemma MinuteFields(seconds: int)
    requires seconds >= 0
    ensures FormatTime(seconds) == JsText.NatToString(seconds / 60) + ":" + JsText.TwoDigits(seconds % 60)
    ensures (seconds / 60) * 60 + seconds % 60 == seconds
  {
  }

  /** "M:SS" with an unpadded minutes field reads back as minutes * 60 + secs. */
  lemma MinutesClockReads(shown: string, mins: nat, secs: nat, total: nat)
    requires secs < 60
    requires shown == JsText.NatToString(mins) + ":" + JsText.TwoDigits(secs)
    requires total == mins * 60 + secs
    ensures JsText.ParseClock(shown) == Some(total)
  {
    JsText.ParseNatToString(mins);
    JsText.TwoDigitsRead(secs);
    JsText.TwoFieldsRead(shown, JsText.NatToString(mins), JsText.TwoDigits(secs), mins, secs, total);
  }

  /** The display of a non-negative count reads back as that count. */
  lemma FormatTimeReadsBack(seconds: int)
    requires seconds >= 0
    ensures JsText.ParseClock(FormatTime(seconds)) == Some(seconds)
  {
    MinuteFields(seconds);
    MinutesClockReads(FormatTime(seconds), seconds / 60, seconds % 60, seconds);
  }

  /** An hour and a half has no hours field here: it shows as "90:00". */
  lemma FormatTimeNoHours()
    ensures FormatTime(5400) == "90:00"
  {
    JsText.SmallNumerals();
    assert 5400 / 60 == 90 && JsText.JsRem(5400, 60) == 0;
    assert JsText.IntToString(90) == "90" && JsText.PadStart2(JsText.IntToString(0)) == "00";
  }

  /** What one message does to the hook. */
  lemma ReceiveEffect(h: Hook, r: Response)
    ensures var g := ReceiveSpec(h, r);
      (r.kind == Complete ==> g.seconds == 0) && (r.kind != Complete ==> g.seconds == r.seconds)
      && (g.isRunning <==> (r.kind == Started || r.kind == Resumed || (r.kind == TickMsg && h.isRunning)))
      && (r.kind == TickMsg <==> g.tickCalls == h.tickCalls + [r.seconds])
      && (r.kind == Complete <==> g.completeCalls == h.completeCalls + 1)
  {
  }

  lemma {:induction false} DeliverAppend(h: Hook, a: seq<Response>, b: seq<Response>)
    ensures DeliverAll(h, a + b) == DeliverAll(DeliverAll(h, a), b)
    decreases |a|
  {
    if |a| > 0 {
      assert (a + b)[0] == a[0];
      assert (a + b)[1..] == a[1..] + b;
      DeliverAppend(ReceiveSpec(h, a[0]), a[1..], b);
    } else {
      assert a + b == b;
    }
  }

  lemma DeliverOne(h: Hook, a: Response)
    ensures DeliverAll(h, [a]) == ReceiveSpec(h, a)
  {
    assert [a][1..] == [];
  }

  lemma DeliverTwo(h: Hook, a: Response, b: Response)
    ensures DeliverAll(h, [a, b]) == ReceiveSpec(ReceiveSpec(h, a), b)
  {
    assert [a, b][1..] == [b];
    DeliverOne(ReceiveSpec(h, a), b);
  }

  lemma DeliverThree(h: Hook, a: Response, b: Response, c: Response)
    ensures DeliverAll(h, [a, b, c]) == ReceiveSpec(ReceiveSpec(ReceiveSpec(h, a), b), c)
  {
    assert [a, b, c][1..] == [b, c];
    DeliverTwo(ReceiveSpec(h, a), b, c);
  }

  /** Once the hook has handled everything a message made the worker
      post, it shows the worker's count and running flag again — except
      after 'stop', which zeroes the count after reporting it. */
  lemma MessageMirrorKept(h: Hook, w: Worker, m: Message)
    requires Mirrors(h, w) && m != Stop
    ensures Mirrors(DeliverAll(h, OnMessageSpec(w, m).outbox[|w.outbox|..]), OnMessageSpec(w, m))
  {
    var w1 := OnMessageSpec(w, m);
    var rs := w1.outbox[|w.outbox|..];
    match m {
      case Start(s) =>
        if s.Some? && s.value >= 0 {
          assert rs == [Response(Stopped, w.remainingSeconds), Response(Started, s.value)];
          DeliverTwo(h, rs[0], rs[1]);
        } else {
          assert rs == [];
        }
      case Pause =>
        assert rs == [Response(Paused, w.remainingSeconds)];
        DeliverOne(h, rs[0]);
      case Resume =>
        if !w.isRunning && w.remainingSeconds > 0 {
          assert rs == [Response(Resumed, w.remainingSeconds)];
          DeliverOne(h, rs[0]);
        } else {
          assert rs == [];
        }
      case Set(s) =>
        if s.Some? && s.value >= 0 {
          if w.isRunning {
            assert rs == [Response(Stopped, s.value), Response(Started, s.value)];
            DeliverTwo(h, rs[0], rs[1]);
          } else {
            assert rs == [Response(TickMsg, s.value)];
            DeliverOne(h, rs[0]);
          }
        } else {
          assert rs == [];
        }
    }
  }

  /** The same holds for an interval firing, the last one included. */
  lemma TickMirrorKept(h: Hook, w: Worker)
    requires Mirrors(h, w)
    ensures Mirrors(DeliverAll(h, TickSpec(w).outbox[|w.outbox|..]), TickSpec(w))
  {
    var t := TickSpec(w);
    var ts := t.outbox[|w.outbox|..];
    if w.remainingSeconds > 1 {
      assert ts == [Response(TickMsg, w.remainingSeconds - 1)];
      DeliverOne(h, ts[0]);
    } else if w.remainingSeconds == 1 {
      assert ts == [Response(TickMsg, 0), Response(Stopped, 0), Response(Complete, 0)];
      DeliverThree(h, ts[0], ts[1], ts[2]);
    } else {
      assert ts == [];
    }
  }

  /** After 'stop' alone the hook shows the count the worker had, while the
      worker holds zero. */
  lemma StopShowsOldCount(h: Hook, w: Worker)
    requires Mirrors(h, w)
    ensures var w1 := OnMessageSpec(w, Stop);
      DeliverAll(h, w1.outbox[|w.outbox|..]).seconds == w.remainingSeconds && w1.remainingSeconds == 0
  {
    var w1 := OnMessageSpec(w, Stop);
    var rs := w1.outbox[|w.outbox|..];
    assert rs == [Response(Stopped, w.remainingSeconds)];
    DeliverOne(h, rs[0]);
  }

  /** `reset(n)` with a worker posts stop and then set, and leaves the hook
      stopped at the target; once the worker has handled both messages and
      the hook its replies, the two agree on the target. */
  lemma ResetAgrees(h: Hook, w: Worker, newSeconds: Option<int>, initialSeconds: int)
    requires h.workerAttached && newSeconds.GetOr(initialSeconds) >= 0
    ensures var g := ResetSpec(h, newSeconds, initialSeconds);
      var target := newSeconds.GetOr(initialSeconds);
      g.seconds == target && !g.isRunning && g.posted == h.posted + [Stop, Set(Some(target))]
    ensures var g := ResetSpec(h, newSeconds, initialSeconds);
      var target := newSeconds.GetOr(initialSeconds);
      var w2 := OnMessageSpec(OnMessageSpec(w, Stop), Set(Some(target)));
      Mirrors(DeliverAll(g, w2.outbox[|w.outbox|..]), w2) && w2.remainingSeconds == target
  {
    var g := ResetSpec(h, newSeconds, initialSeconds);
    var target := newSeconds.GetOr(initialSeconds);
    var w2 := OnMessageSpec(OnMessageSpec(w, Stop), Set(Some(target)));
    var rs := w2.outbox[|w.outbox|..];
    assert rs == [Response(Stopped, w.remainingSeconds), Response(TickMsg, target)];
    DeliverTwo(g, rs[0], rs[1]);
  }

  /** An external change of `initialSeconds` is applied only to an attached,
      stopped timer, and then both shown and sent to the worker. */
  lemma SyncRule(h: Hook, initialSeconds: int)
    ensures h.isRunning || !h.workerAttached ==> SyncInitialSpec(h, initialSeconds) == h
    ensures !h.isRunning && h.workerAttached ==>
      SyncInitialSpec(h, initialSeconds).seconds == initialSeconds
      && SyncInitialSpec(h, initialSeconds).posted == h.posted + [Set(Some(initialSeconds))]
  {
  }

  /** Mounting and the worker's ready message leave a fresh hook mirroring
      a freshly loaded worker that has handled the initial count. */
  lemma MountMirrors(initialSeconds: int)
    requires initialSeconds >= 0
    ensures var h := MountSpec(Initial(initialSeconds), initialSeconds);
      var w := OnMessageSpec(Loaded, Set(Some(initialSeconds)));
      Mirrors(DeliverAll(h, w.outbox), w)
  {
    var h := MountSpec(Initial(initialSeconds), initialSeconds);
    var w := OnMessageSpec(Loaded, Set(Some(initialSeconds)));
    assert w.outbox == [Response(TickMsg, 0), Response(TickMsg, initialSeconds)];
    DeliverTwo(h, w.outbox[0], w.outbox[1]);
  }

  // ---------------------------------------------------------------
  // The hook's state, updated by its setters
  // ---------------------------------------------------------------

  class TimerHook {
    var seconds: int
    var isRunning: bool
    var workerAttached: bool
    var posted: seq<Message>
    var tickCalls: seq<int>
    var completeCalls: nat

    function Snapshot(): Hook
      reads this
    {
      Hook(seconds, isRunning, workerAttached, posted, tickCalls, completeCalls)
    }

    constructor (initialSeconds: int)
      ensures Snapshot() == Initial(initialSeconds)
    {
      seconds := initialSeconds;
      isRunning := false;
      workerAttached := false;
      posted := [];
      tickCalls := [];
      completeCalls := 0;
    }

    method Mount(initialSeconds: int)
      modifies this
      ensures Snapshot() == MountSpec(old(Snapshot()), initialSeconds)
    {
      workerAttached := true;
      posted := posted + [Set(Some(initialSeconds))];
    }

    method Unmount()
      modifies this
      ensures Snapshot() == UnmountSpec(old(Snapshot()))
    {
      workerAttached := false;
    }

    method HandleWorkerMessage(r: Response)
      modifies this
      ensures Snapshot() == ReceiveSpec(old(Snapshot()), r)
    {
      match r.kind {
        case TickMsg =>
          seconds := r.seconds;
          tickCalls := tickCalls + [r.seconds];
        case Complete =>
          seconds := 0;
          isRunning := false;
          completeCalls := completeCalls + 1;
        case Started =>
          seconds := r.seconds;
          isRunning := true;
        case Resumed =>
          seconds := r.seconds;
          isRunning := true;
        case Paused =>
          seconds := r.seconds;
          isRunning := false;
        case Stopped =>
          seconds := r.seconds;
          isRunning := false;
      }
    }

    method SyncInitialSeconds(initialSeconds: int)
      modifies this
      ensures Snapshot() == SyncInitialSpec(old(Snapshot()), initialSeconds)
    {
      if workerAttached && !isRunning {
        posted := posted + [Set(Some(initialSeconds))];
        seconds := initialSeconds;
      }
    }

    method Start()
      modifies this
      ensures Snapshot() == HookStartSpec(old(Snapshot()))
    {
      if workerAttached {
        posted := posted + [Message.Start(Some(seconds))];
      }
    }

    method Pause()
      modifies this
      ensures Snapshot() == HookPauseSpec(old(Snapshot()))
    {
      if workerAttached {
        posted := posted + [Message.Pause];
      }
    }

    method Reset(newSeconds: Option<int>, initialSeconds: int)
      modifies this
      ensures Snapshot() == ResetSpec(old(Snapshot()), newSeconds, initialSeconds)
    {
      var target := newSeconds.GetOr(initialSeconds);
      if workerAttached {
        posted := posted + [Stop];
        posted := posted + [Set(Some(target))];
        seconds := target;
        isRunning := false;
      }
    }
  }
}
