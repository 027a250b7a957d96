/** The countdown worker: a small message-driven state machine over the
    remaining seconds and a running flag. Each firing of its one-second
    interval is a call of `Tick`; the drift bookkeeping on `Date.now()`
    never feeds back into the countdown and is not modelled. */
module TimerWorker {
  import opened Wrappers

  datatype ResponseKind = TickMsg | Complete | Paused | Resumed | Started | Stopped

  /** A message the worker posts. */
  datatype Response = Response(kind: ResponseKind, seconds: int)

  /** A message the worker receives; `seconds` is `None` when it is not a number. */
  datatype Message = Start(startSeconds: Option<int>) | Pause | Resume | Stop | Set(setSeconds: Option<int>)

  /** The worker's module-level variables: `intervalId` is reduced to
      whether an interval is scheduled. */
  datatype Worker = Worker(remainingSeconds: int, isRunning: bool, intervalActive: bool, outbox: seq<Response>)

  /** A freshly loaded worker has posted its ready message. */
  const Loaded: Worker := Worker(0, false, false, [Response(TickMsg, 0)])

  function Post(w: Worker, kind: ResponseKind, seconds: int): Worker {
    w.(outbox := w.outbox + [Response(kind, seconds)])
  }

  function StopSpec(w: Worker): Worker {
    Post(w.(intervalActive := false, isRunning := false), Stopped, w.remainingSeconds)
  }

  function TickSpec(w: Worker): Worker {
    if w.remainingSeconds <= 0 then w
    else
      var w1 := Post(w.(remainingSeconds := w.remainingSeconds - 1), TickMsg, w.remainingSeconds - 1);
      if w1.remainingSeconds == 0 then Post(StopSpec(w1), Complete, 0) else w1
  }

  function StartSpec(w: Worker, seconds: int): Worker {
    var w1 := StopSpec(w);
    Post(w1.(remainingSeconds := seconds, isRunning := true, intervalActive := true), Started, seconds)
  }

  function PauseSpec(w: Worker): Worker {
    Post(w.(intervalActive := false, isRunning := false), Paused, w.remainingSeconds)
  }

  function ResumeSpec(w: Worker): Worker {
    if !w.isRunning && w.remainingSeconds > 0 then
      Post(w.(isRunning := true, intervalActive := true), Resumed, w.remainingSeconds)
    else w
  }

  function SetSecondsSpec(w: Worker, seconds: int): Worker {
    var w1 := w.(remainingSeconds := seconds);
    if w1.isRunning then StartSpec(w1, seconds) else Post(w1, TickMsg, seconds)
  }

  /** The `onmessage` dispatcher; `start` and `set` ignore a missing or
      negative count. */
  function OnMessageSpec(w: Worker, m: Message): Worker {
    match m
    case Start(s) => if s.Some? && s.value >= 0 then StartSpec(w, s.value) else w
    case Pause => PauseSpec(w)
    case Resume => ResumeSpec(w)
    case Stop => StopSpec(w).(remainingSeconds := 0)
    case Set(s) => if s.Some? && s.value >= 0 then SetSecondsSpec(w, s.value) else w
  }

  /** The messages posted since `before`. */
  function NewResponses(before: Worker, after: Worker): seq<Response>
    requires |before.outbox| <= |after.outbox|
  {
    after.outbox[|before.outbox|..]
  }

  /** The worker only ever appends to its outbox. */
  predicate Extends(before: Worker, after: Worker) {
    |before.outbox| <= |after.outbox| && after.outbox[..|before.outbox|] == before.outbox
  }

  /** A running worker has an interval scheduled, and the count is never negative. */
  predicate Sound(w: Worker) {
    w.remainingSeconds >= 0 && (w.isRunning <==> w.intervalActive)
  }

  // ---------------------------------------------------------------
  // Properties
  // ---------------------------------------------------------------

  /** A tick counts a positive count down by one and reports it; reaching
      zero stops the countdown and reports `stopped` and `complete`; a tick
      at zero does nothing. */
  lemma TickEffect(w: Worker)
    ensures w.remainingSeconds <= 0 ==> TickSpec(w) == w
    ensures w.remainingSeconds > 1 ==>
      TickSpec(w) == w.(remainingSeconds := w.remainingSeconds - 1,
                        outbox := w.outbox + [Response(TickMsg, w.remainingSeconds - 1)])
    ensures w.remainingSeconds == 1 ==>
      TickSpec(w) == w.(remainingSeconds := 0, isRunning := false, intervalActive := false,
                        outbox := w.outbox + [Response(TickMsg, 0), Response(Stopped, 0), Response(Complete, 0)])
  {
  }

  /** `start(s)` first stops (reporting the old count), then runs from `s`. */
  lemma StartEffect(w: Worker, s: int)
    ensures StartSpec(w, s) == Worker(s, true, true, w.outbox + [Response(Stopped, w.remainingSeconds), Response(Started, s)])
  {
  }

  /** `pause` keeps the count; `resume` acts only on a stopped positive count. */
  lemma PauseResumeEffect(w: Worker)
    ensures PauseSpec(w).remainingSeconds == w.remainingSeconds && !PauseSpec(w).isRunning
    ensures PauseSpec(w).outbox == w.outbox + [Response(Paused, w.remainingSeconds)]
    ensures (w.isRunning || w.remainingSeconds <= 0) ==> ResumeSpec(w) == w
    ensures !w.isRunning && w.remainingSeconds > 0 ==>
      ResumeSpec(w) == w.(isRunning := true, intervalActive := true,
                          outbox := w.outbox + [Response(Resumed, w.remainingSeconds)])
  {
  }

  /** The 'stop' message reports the count it had, then zeroes it. */
  lemma StopMessageEffect(w: Worker)
    ensures OnMessageSpec(w, Stop) == Worker(0, false, false, w.outbox + [Response(Stopped, w.remainingSeconds)])
  {
  }

  /** `setSeconds` restarts a running countdown from the new count and only
      reports it otherwise. */
  lemma SetSecondsEffect(w: Worker, s: int)
    ensures w.isRunning ==> SetSecondsSpec(w, s) == StartSpec(w.(remainingSeconds := s), s)
    ensures w.isRunning ==> SetSecondsSpec(w, s).outbox == w.outbox + [Response(Stopped, s), Response(Started, s)]
    ensures !w.isRunning ==> SetSecondsSpec(w, s) == w.(remainingSeconds := s, outbox := w.outbox + [Response(TickMsg, s)])
  {
  }

  /** Every message and every tick keeps the worker sound (so the count
      never goes below zero) and only appends to the outbox. */
  lemma StepsKeepSound(w: Worker, m: Message)
    requires Sound(w)
    ensures Sound(OnMessageSpec(w, m)) && Extends(w, OnMessageSpec(w, m))
    ensures Sound(TickSpec(w)) && Extends(w, TickSpec(w))
  {
  }

  /** A missing or negative count leaves `start` and `set` without effect. */
  lemma IgnoresBadCounts(w: Worker, s: Option<int>)
    requires s.None? || s.value < 0
    ensures OnMessageSpec(w, Start(s)) == w && OnMessageSpec(w, Set(s)) == w
  {
  }

  /** `n` interval firings. */
  function Ticks(w: Worker, n: nat): Worker
    decreases n
  {
    if n == 0 then w else Ticks(TickSpec(w), n - 1)
  }

  /** The tick reports of a countdown from `s`: `s - 1`, ..., `0`. */
  function CountdownReports(s: nat): seq<Response>
    decreases s
  {
    if s == 0 then [] else [Response(TickMsg, s - 1)] + CountdownReports(s - 1)
  }

  /** Started at `s > 0`, the worker completes after exactly `s` firings,
      having reported every count from `s - 1` down to zero, then `stopped`
      and `complete`. */
  lemma {:induction false} CountdownCompletes(w: Worker, s: nat)
    requires s > 0 && w.remainingSeconds == s && w.isRunning
    ensures var r := Ticks(w, s);
      r.remainingSeconds == 0 && !r.isRunning && !r.intervalActive
      && r.outbox == w.outbox + CountdownReports(s) + [Response(Stopped, 0), Response(Complete, 0)]
    decreases s
  {
    var w1 := TickSpec(w);
    if s == 1 {
      assert Ticks(w, 1) == w1;
      assert CountdownReports(1) == [Response(TickMsg, 0)];
    } else {
      assert w1.remainingSeconds == s - 1 && w1.isRunning;
      assert w1.outbox == w.outbox + [Response(TickMsg, s - 1)];
      CountdownCompletes(w1, s - 1);
      assert Ticks(w, s) == Ticks(w1, s - 1);
      assert CountdownReports(s) == [Response(TickMsg, s - 1)] + CountdownReports(s - 1);
    }
  }

  // ---------------------------------------------------------------
  // The worker's variables, updated in place
  // ---------------------------------------------------------------

  class TimerWorkerState {
    var remainingSeconds: int
    var isRunning: bool
    var intervalActive: bool
    var outbox: seq<Response>

    function Snapshot(): Worker
      reads this
    {
      Worker(remainingSeconds, isRunning, intervalActive, outbox)
    }

    /** Loading the script posts the ready message. */
    constructor ()
      ensures Snapshot() == Loaded
    {
      remainingSeconds := 0;
      isRunning := false;
      intervalActive := false;
      outbox := [Response(TickMsg, 0)];
    }

    method PostMessage(kind: ResponseKind, seconds: int)
      modifies this
      ensures Snapshot() == Post(old(Snapshot()), kind, seconds)
    {
      outbox := outbox + [Response(kind, seconds)];
    }

    method Tick()
      modifies this
      ensures Snapshot() == TickSpec(old(Snapshot()))
    {
      if remainingSeconds > 0 {
        remainingSeconds := remainingSeconds - 1;
        PostMessage(TickMsg, remainingSeconds);
        if remainingSeconds == 0 {
          StopCountdown();
          PostMessage(Complete, 0);
        }
      }
    }

    method StartCountdown(seconds: int)
      modifies this
      ensures Snapshot() == StartSpec(old(Snapshot()), seconds)
    {
      StopCountdown();
      remainingSeconds := seconds;
      isRunning := true;
      intervalActive := true;
      PostMessage(Started, remainingSeconds);
    }

    method PauseCountdown()
      modifies this
      ensures Snapshot() == PauseSpec(old(Snapshot()))
    {
      intervalActive := false;
      isRunning := false;
      PostMessage(Paused, remainingSeconds);
    }

    method ResumeCountdown()
      modifies this
      ensures Snapshot() == ResumeSpec(old(Snapshot()))
    {
      if !isRunning && remainingSeconds > 0 {
        isRunning := true;
        intervalActive := true;
        PostMessage(Resumed, remainingSeconds);
      }
    }

    method StopCountdown()
      modifies this
      ensures Snapshot() == StopSpec(old(Snapshot()))
    {
      intervalActive := false;
      isRunning := false;
      PostMessage(Stopped, remainingSeconds);
    }

    method SetSeconds(seconds: int)
      modifies this
      ensures Snapshot() == SetSecondsSpec(old(Snapshot()), seconds)
    {
      remainingSeconds := seconds;
      if isRunning {
        StartCountdown(seconds);
      } else {
        PostMessage(TickMsg, remainingSeconds);
      }
    }

    method OnMessage(m: Message)
      modifies this
      ensures Snapshot() == OnMessageSpec(old(Snapshot()), m)
      ensures Sound(old(Snapshot())) ==> Sound(Snapshot())
    {
      ghost var w := Snapshot();
      if Sound(w) {
        StepsKeepSound(w, m);
      }
      match m {
        case Start(s) =>
          if s.Some? && s.value >= 0 {
            StartCountdown(s.value);
          }
        case Pause => PauseCountdown();
        case Resume => ResumeCountdown();
        case Stop =>
          StopCountdown();
          remainingSeconds := 0;
        case Set(s) =>
          if s.Some? && s.value >= 0 {
            SetSeconds(s.value);
          }
      }
    }
  }
}
