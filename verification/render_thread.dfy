/** The dedicated render thread of the GL wallpaper engine, as a sequential
    state machine. Its control points are the loop test, the locked pause
    block and the loop body; each step runs one of them atomically, and the
    host's calls (resize, pause, resume, exit request) interleave between
    steps. The renderer callbacks it issues form the observable log. */
module RenderThread {

  /** A renderer callback issued by the thread. */
  datatype Callback = SurfaceCreated | SurfaceChanged(width: int, height: int) | DrawFrame

  /** Outcome of one attempt to (re)acquire the window surface: both EGL
      calls succeed, surface creation throws, or the surface is created but
      cannot be made current. */
  datatype Acquisition = Acquired | CreateFailed | MakeCurrentFailed

  /** The loop's `surface` variable: none yet, a surface made current, one
      created but never made current, or a reference to a surface that was
      already destroyed (kept when re-creation throws). */
  datatype Surface = NoSurface | Current | NotCurrent | Stale

  /** Control point: before `while (running)`, at the locked pause block,
      at the body, or past the loop with the context destroyed. */
  datatype Pc = LoopTest | Lock | InBody | Exited

  datatype GLThread = GLThread(
    running: bool, paused: bool,
    width: int, height: int, sizeChanged: bool,
    surface: Surface, surfaceCreated: bool,
    pc: Pc, log: seq<Callback>)

  /** A freshly started thread. */
  function Start(): (t: GLThread)
    ensures t.running && !t.paused && !t.sizeChanged && t.pc == LoopTest && t.log == []
  {
    GLThread(true, false, 0, 0, false, NoSurface, false, LoopTest, [])
  }

  /** The first half of `requestExitAndWait`: clears `running`; the engine
      then joins the thread. */
  function RequestExit(t: GLThread): (r: GLThread)
    ensures !r.running && r.(running := t.running) == t
  {
    t.(running := false)
  }

  /** `onWindowResize`: stores the size and flags it for the loop. */
  function OnWindowResize(t: GLThread, w: int, h: int): (r: GLThread)
    ensures r.sizeChanged && r.width == w && r.height == h
    ensures r.(width := t.width, height := t.height, sizeChanged := t.sizeChanged) == t
  {
    t.(width := w, height := h, sizeChanged := true)
  }

  /** Several resizes before the loop consumes them: the last one wins. */
  lemma LastResizeWins(t: GLThread, w1: int, h1: int, w2: int, h2: int)
    ensures OnWindowResize(OnWindowResize(t, w1, h1), w2, h2) == OnWindowResize(t, w2, h2)
  {
  }

  /** `pauseRendering`. */
  function PauseRendering(t: GLThread): (r: GLThread)
    ensures r.paused && r.(paused := t.paused) == t
  {
    t.(paused := true)
  }

  /** `resumeRendering`. */
  function ResumeRendering(t: GLThread): (r: GLThread)
    ensures !r.paused && r.(paused := t.paused) == t
  {
    t.(paused := false)
  }

  /** The loop body exactly as written. When there is no surface or a
      resize is pending, the old surface (if any) is destroyed and a new one
      created and made current; a failure sleeps and `continue`s, and a
      surface that could not be made current stays in `surface`. On success
      `onSurfaceCreated` fires the first time, `onSurfaceChanged` fires if a
      resize is pending, and the frame is drawn. With a surface held and no
      resize pending, whether or not it was ever made current, the frame is
      drawn directly. */
  function BodyAsWritten(t: GLThread, acq: Acquisition): (r: GLThread)
    requires t.pc == InBody
    ensures r.pc == LoopTest && r.running == t.running && r.paused == t.paused
    ensures r.width == t.width && r.height == t.height
    ensures acq != Acquired && (t.surface == NoSurface || t.sizeChanged) ==>
      r.log == t.log && r.sizeChanged == t.sizeChanged && r.surfaceCreated == t.surfaceCreated
    ensures acq == MakeCurrentFailed && (t.surface == NoSurface || t.sizeChanged) ==> r.surface == NotCurrent
    ensures acq == Acquired && (t.surface == NoSurface || t.sizeChanged) ==>
      !r.sizeChanged && r.surface == Current && r.surfaceCreated
      && r.log == t.log + (if t.surfaceCreated then [] else [SurfaceCreated])
                        + (if t.sizeChanged then [SurfaceChanged(t.width, t.height)] else []) + [DrawFrame]
    ensures t.surface != NoSurface && !t.sizeChanged ==>
      r.log == t.log + [DrawFrame] && r.surface == t.surface && r.surfaceCreated == t.surfaceCreated
  {
    if t.surface == NoSurface || t.sizeChanged then
      match acq
      case CreateFailed =>
        t.(surface := if t.surface == NoSurface then NoSurface else Stale, pc := LoopTest)
      case MakeCurrentFailed =>
        t.(surface := NotCurrent, pc := LoopTest)
      case Acquired =>
        var created := if t.surfaceCreated then [] else [SurfaceCreated];
        var changed := if t.sizeChanged then [SurfaceChanged(t.width, t.height)] else [];
        t.(surface := Current, surfaceCreated := true, sizeChanged := false, pc := LoopTest,
           log := t.log + created + changed + [DrawFrame])
    else
      t.(pc := LoopTest, log := t.log + [DrawFrame])
  }

  /** The loop body with the make-current failure handled: the surface that
      could not be made current is destroyed and forgotten, so the next
      iteration tries again instead of drawing without a context. It differs
      from the body as written in that one case only. */
  function Body(t: GLThread, acq: Acquisition): (r: GLThread)
    requires t.pc == InBody
    ensures r.pc == LoopTest && r.running == t.running && r.paused == t.paused
    ensures r.width == t.width && r.height == t.height
    ensures t.surface != NotCurrent ==> r.surface != NotCurrent
    ensures acq != Acquired && (t.surface == NoSurface || t.sizeChanged) ==>
      r.log == t.log && r.sizeChanged == t.sizeChanged && r.surfaceCreated == t.surfaceCreated
    ensures acq == Acquired && t.sizeChanged ==>
      !r.sizeChanged && r.surface == Current && r.surfaceCreated
      && r.log == t.log + (if t.surfaceCreated then [] else [SurfaceCreated])
                        + [SurfaceChanged(t.width, t.height), DrawFrame]
    ensures t.surface == Current && !t.sizeChanged ==> r.log == t.log + [DrawFrame]
    ensures acq == MakeCurrentFailed && (t.surface == NoSurface || t.sizeChanged) ==>
      r == BodyAsWritten(t, acq).(surface := NoSurface)
    ensures !(acq == MakeCurrentFailed && (t.surface == NoSurface || t.sizeChanged)) ==>
      r == BodyAsWritten(t, acq)
  {
    if acq == MakeCurrentFailed && (t.surface == NoSurface || t.sizeChanged) then
      t.(surface := NoSurface, pc := LoopTest)
    else
      BodyAsWritten(t, acq)
  }

  /** Which body the loop runs: the code as written, or with the
      make-current failure handled. */
  datatype Loop = AsWritten | Corrected

  function LoopBody(loop: Loop, t: GLThread, acq: Acquisition): GLThread
    requires t.pc == InBody
  {
    if loop == Corrected then Body(t, acq) else BodyAsWritten(t, acq)
  }

  /** One atomic step of `run`. The locked block waits while running and
      paused; once woken it falls through to the body even when `running`
      was cleared, because `return@synchronized` leaves only the lock block.
      Callbacks are issued only by the body. */
  function Step(loop: Loop, t: GLThread, acq: Acquisition): (r: GLThread)
    ensures t.pc != InBody ==> r.log == t.log
    ensures t.pc == Lock && t.running && t.paused ==> r == t
    ensures t.pc == Lock && !(t.running && t.paused) ==> r == t.(pc := InBody)
    ensures t.pc == LoopTest ==> r == t.(pc := if t.running then Lock else Exited)
    ensures t.pc == Exited ==> r == t
    ensures r.running == t.running && r.paused == t.paused
  {
    match t.pc
    case LoopTest => if t.running then t.(pc := Lock) else t.(pc := Exited)
    case Lock => if t.running && t.paused then t else t.(pc := InBody)
    case InBody => LoopBody(loop, t, acq)
    case Exited => t
  }

  /** Events seen by one thread: a host call or one step of the loop. */
  datatype ThreadEvent =
    | Resize(w: int, h: int)
    | Pause
    | Resume
    | Exit
    | Iterate(acq: Acquisition)

  function Apply(loop: Loop, t: GLThread, e: ThreadEvent): GLThread {
    match e
    case Resize(w, h) => OnWindowResize(t, w, h)
    case Pause => PauseRendering(t)
    case Resume => ResumeRendering(t)
    case Exit => RequestExit(t)
    case Iterate(acq) => Step(loop, t, acq)
  }

  function RunThread(loop: Loop, t: GLThread, es: seq<ThreadEvent>): GLThread
    decreases |es|
  {
    if |es| == 0 then t else RunThread(loop, Apply(loop, t, es[0]), es[1..])
  }

  /** A thread started with `count` loop steps and no host calls between them. */
  function Iterations(acqs: seq<Acquisition>): seq<ThreadEvent>
    ensures |Iterations(acqs)| == |acqs|
    ensures forall i :: 0 <= i < |acqs| ==> Iterations(acqs)[i] == Iterate(acqs[i])
  {
    seq(|acqs|, i requires 0 <= i < |acqs| => Iterate(acqs[i]))
  }

  /** `onSurfaceCreated` is issued at most once, and before any other
      callback. */
  ghost predicate CreatedFirstAndOnce(log: seq<Callback>) {
    forall i :: 0 <= i < |log| ==> (log[i] == SurfaceCreated <==> i == 0)
  }

  /** `onSurfaceCreated` is issued at most once, and every
      `onSurfaceChanged` comes after it. Draws are not constrained. */
  ghost predicate CreatedOnceBeforeChanged(log: seq<Callback>) {
    && (forall i, j :: 0 <= i < |log| && 0 <= j < |log| && log[i] == SurfaceCreated && log[j] == SurfaceCreated ==> i == j)
    && (forall j :: 0 <= j < |log| && log[j].SurfaceChanged? ==> SurfaceCreated in log[..j])
  }

  /** The invariant the thread keeps under either body. */
  ghost predicate OrderInv(t: GLThread) {
    && CreatedOnceBeforeChanged(t.log)
    && (t.surfaceCreated <==> SurfaceCreated in t.log)
    && (t.pc == Exited ==> !t.running)
  }

  /** The invariant of the thread under the corrected body. */
  ghost predicate Inv(t: GLThread) {
    && CreatedFirstAndOnce(t.log)
    && (t.surfaceCreated <==> |t.log| > 0)
    && (t.surface == Current ==> t.surfaceCreated)
    && (t.surface == Stale ==> t.sizeChanged)
    && t.surface != NotCurrent
    && (t.pc == Exited ==> !t.running)
  }

  lemma StartInv()
    ensures Inv(Start()) && OrderInv(Start())
  {
  }

  lemma AppendKeepsCreatedFirst(log: seq<Callback>, tail: seq<Callback>)
    requires CreatedFirstAndOnce(log) && |log| > 0
    requires SurfaceCreated !in tail
    ensures CreatedFirstAndOnce(log + tail)
  {
    var l := log + tail;
    forall i | 0 <= i < |l|
      ensures l[i] == SurfaceCreated <==> i == 0
    {
      if i >= |log| { assert l[i] == tail[i - |log|]; }
    }
  }

  lemma {:induction false} BodyKeepsInv(t: GLThread, acq: Acquisition)
    requires Inv(t) && t.pc == InBody
    ensures Inv(Body(t, acq))
  {
    var r := Body(t, acq);
    if acq == Acquired && (t.surface == NoSurface || t.sizeChanged) {
      var changed := if t.sizeChanged then [SurfaceChanged(t.width, t.height)] else [];
      if t.surfaceCreated {
        AppendKeepsCreatedFirst(t.log, changed + [DrawFrame]);
        assert r.log == t.log + (changed + [DrawFrame]);
      } else {
        assert t.log == [];
        assert r.log == [SurfaceCreated] + changed + [DrawFrame];
      }
    } else if !(t.surface == NoSurface || t.sizeChanged) {
      assert t.surface == Current;
      AppendKeepsCreatedFirst(t.log, [DrawFrame]);
    }
  }

  /** Every event keeps the invariant of the corrected loop. */
  lemma {:induction false} ApplyKeepsInv(t: GLThread, e: ThreadEvent)
    requires Inv(t)
    ensures Inv(Apply(Corrected, t, e))
  {
    if e.Iterate? && t.pc == InBody {
      BodyKeepsInv(t, e.acq);
    }
  }

  /** Under any interleaving of host calls and loop steps, the corrected
      loop issues `onSurfaceCreated` at most once, and before any
      `onSurfaceChanged` or `onDrawFrame`. */
  lemma {:induction false} CreatedBeforeAnyOtherCallback(t: GLThread, es: seq<ThreadEvent>)
    requires Inv(t)
    ensures Inv(RunThread(Corrected, t, es))
    ensures CreatedFirstAndOnce(RunThread(Corrected, t, es).log)
    decreases |es|
  {
    if |es| > 0 {
      ApplyKeepsInv(t, es[0]);
      CreatedBeforeAnyOtherCallback(Apply(Corrected, t, es[0]), es[1..]);
    }
  }

  /** A log with no `onSurfaceCreated` in order holds no `onSurfaceChanged`. */
  lemma NoCreatedNoChanged(log: seq<Callback>)
    requires CreatedOnceBeforeChanged(log) && SurfaceCreated !in log
    ensures forall j :: 0 <= j < |log| ==> !log[j].SurfaceChanged?
  {
    forall j | 0 <= j < |log|
      ensures SurfaceCreated !in log[..j]
    {
      assert forall k :: 0 <= k < j ==> log[..j][k] == log[k];
    }
  }

  /** Appending callbacks that hold no `onSurfaceCreated` to a log that
      already holds one keeps the order. */
  lemma AppendKeepsOrder(log: seq<Callback>, tail: seq<Callback>)
    requires CreatedOnceBeforeChanged(log) && SurfaceCreated in log
    requires SurfaceCreated !in tail
    ensures CreatedOnceBeforeChanged(log + tail)
  {
    var l := log + tail;
    var k :| 0 <= k < |log| && log[k] == SurfaceCreated;
    forall i | |log| <= i < |l|
      ensures l[i] != SurfaceCreated
    {
      assert l[i] == tail[i - |log|];
    }
    forall j | 0 <= j < |l| && l[j].SurfaceChanged?
      ensures SurfaceCreated in l[..j]
    {
      if j < |log| {
        assert l[..j] == log[..j];
      } else {
        assert l[..j][k] == SurfaceCreated;
      }
    }
  }

  /** The first `onSurfaceCreated`, followed by callbacks that hold none,
      keeps the order. */
  lemma FirstCreatedKeepsOrder(log: seq<Callback>, tail: seq<Callback>)
    requires CreatedOnceBeforeChanged(log) && SurfaceCreated !in log
    requires SurfaceCreated !in tail
    ensures CreatedOnceBeforeChanged(log + [SurfaceCreated] + tail)
  {
    var l := log + [SurfaceCreated] + tail;
    var n := |log|;
    NoCreatedNoChanged(log);
    forall i | 0 <= i < n
      ensures l[i] == log[i] && l[i] != SurfaceCreated && !l[i].SurfaceChanged?
    {
    }
    forall i | n < i < |l|
      ensures l[i] == tail[i - n - 1] && l[i] != SurfaceCreated
    {
    }
    forall j | n < j < |l|
      ensures SurfaceCreated in l[..j]
    {
      assert l[..j][n] == SurfaceCreated;
    }
  }

  /** Either body keeps the order invariant. */
  lemma {:induction false} BodyKeepsOrder(loop: Loop, t: GLThread, acq: Acquisition)
    requires OrderInv(t) && t.pc == InBody
    ensures OrderInv(LoopBody(loop, t, acq))
  {
    var w := BodyAsWritten(t, acq);
    if acq == Acquired && (t.surface == NoSurface || t.sizeChanged) {
      var changed := if t.sizeChanged then [SurfaceChanged(t.width, t.height)] else [];
      if t.surfaceCreated {
        AppendKeepsOrder(t.log, changed + [DrawFrame]);
        assert w.log == t.log + (changed + [DrawFrame]);
      } else {
        FirstCreatedKeepsOrder(t.log, changed + [DrawFrame]);
        assert w.log == t.log + [SurfaceCreated] + (changed + [DrawFrame]);
      }
      assert SurfaceCreated in w.log;
    } else if !(t.surface == NoSurface || t.sizeChanged) {
      if t.surfaceCreated {
        AppendKeepsOrder(t.log, [DrawFrame]);
      } else {
        NoCreatedNoChanged(t.log);
        assert w.log == t.log + [DrawFrame];
        forall j | 0 <= j < |w.log|
          ensures w.log[j] != SurfaceCreated && !w.log[j].SurfaceChanged?
        {
          if j < |t.log| { assert w.log[j] == t.log[j]; }
        }
      }
    }
  }

  /** Every event keeps the order invariant, under either body. */
  lemma {:induction false} ApplyKeepsOrder(loop: Loop, t: GLThread, e: ThreadEvent)
    requires OrderInv(t)
    ensures OrderInv(Apply(loop, t, e))
  {
    if e.Iterate? && t.pc == InBody {
      BodyKeepsOrder(loop, t, e.acq);
    }
  }

  /** Under any interleaving, and with the body as written too, the renderer
      sees `onSurfaceCreated` at most once and every `onSurfaceChanged`
      after it. */
  lemma {:induction false} SurfaceCreatedOnce(loop: Loop, t: GLThread, es: seq<ThreadEvent>)
    requires OrderInv(t)
    ensures OrderInv(RunThread(loop, t, es))
    ensures CreatedOnceBeforeChanged(RunThread(loop, t, es).log)
    decreases |es|
  {
    if |es| > 0 {
      ApplyKeepsOrder(loop, t, es[0]);
      SurfaceCreatedOnce(loop, Apply(loop, t, es[0]), es[1..]);
    }
  }

  /** Bug (as written): if the first surface is created but cannot be made
      current while no resize is pending, the next iteration skips
      acquisition (a surface is held and `sizeChanged` is false) and calls
      `onDrawFrame` with no current context and before `onSurfaceCreated`. */
  lemma AsWrittenDrawsBeforeCreated()
    ensures var t1 := Step(AsWritten, Step(AsWritten, Start(), Acquired), Acquired);
      var t2 := Step(AsWritten, t1, MakeCurrentFailed);
      var t3 := Step(AsWritten, Step(AsWritten, Step(AsWritten, t2, Acquired), Acquired), Acquired);
      t3.log == [DrawFrame] && !t3.surfaceCreated && t3.surface == NotCurrent
  {
  }

  /** The same failure with the corrected body: no callback is issued and
      the following iteration acquires the surface again. */
  lemma CorrectedRetriesAcquisition()
    ensures var t1 := Step(Corrected, Step(Corrected, Start(), Acquired), Acquired);
      var t2 := Step(Corrected, t1, MakeCurrentFailed);
      var t3 := Step(Corrected, Step(Corrected, Step(Corrected, t2, Acquired), Acquired), Acquired);
      t3.log == [SurfaceCreated, DrawFrame] && t3.surfaceCreated && t3.surface == Current
  {
  }

  /** A resize is delivered on the next successful acquisition, with the
      stored size, and clears the flag; a failed acquisition skips the draw
      and keeps the resize pending for the retry. Both bodies agree. */
  lemma ResizeDeliveredOnAcquisition(loop: Loop, t: GLThread, w: int, h: int, acq: Acquisition)
    requires t.pc == InBody
    ensures var r := LoopBody(loop, OnWindowResize(t, w, h), acq);
      && (acq == Acquired ==> !r.sizeChanged && r.log[|r.log| - 2..] == [SurfaceChanged(w, h), DrawFrame])
      && (acq != Acquired ==> r.sizeChanged && r.log == t.log && r.width == w && r.height == h)
  {
  }

  /** While running and paused, the thread only waits: any number of loop
      steps issues no callback. */
  lemma {:induction false} PausedDrawsNothing(loop: Loop, t: GLThread, acqs: seq<Acquisition>)
    requires t.running && t.paused && (t.pc == LoopTest || t.pc == Lock)
    ensures RunThread(loop, t, Iterations(acqs)).log == t.log
    decreases |acqs|
  {
    if |acqs| > 0 {
      var es := Iterations(acqs);
      assert es[1..] == Iterations(acqs[1..]);
      PausedDrawsNothing(loop, Step(loop, t, acqs[0]), acqs[1..]);
    }
  }

  function CountDraws(log: seq<Callback>): nat
    decreases |log|
  {
    if |log| == 0 then 0 else (if log[|log| - 1] == DrawFrame then 1 else 0) + CountDraws(log[..|log| - 1])
  }

  lemma {:induction false} CountDrawsAppend(a: seq<Callback>, b: seq<Callback>)
    ensures CountDraws(a + b) == CountDraws(a) + CountDraws(b)
    decreases |b|
  {
    if |b| > 0 {
      var n := |b| - 1;
      assert (a + b)[..|a + b| - 1] == a + b[..n];
      CountDrawsAppend(a, b[..n]);
    } else {
      assert a + b == a;
    }
  }

  /** Past the loop test with `running` cleared, nothing more is issued. */
  lemma {:induction false} StoppedAtTestIssuesNothing(loop: Loop, t: GLThread, es: seq<ThreadEvent>)
    requires !t.running && (t.pc == LoopTest || t.pc == Exited)
    ensures RunThread(loop, t, es).log == t.log
    ensures RunThread(loop, t, es).pc == LoopTest || RunThread(loop, t, es).pc == Exited
    decreases |es|
  {
    if |es| > 0 {
      StoppedAtTestIssuesNothing(loop, Apply(loop, t, es[0]), es[1..]);
    }
  }

  /** Once `running` is false, whatever follows, at most one more frame is
      drawn, under either body: a thread woken in (or entering) the lock
      block still runs the body once before the loop test ends it. */
  lemma {:induction false} AtMostOneFrameAfterExit(loop: Loop, t: GLThread, es: seq<ThreadEvent>)
    requires !t.running
    ensures CountDraws(RunThread(loop, t, es).log) <= CountDraws(t.log) + 1
    decreases |es|
  {
    if |es| > 0 {
      var next := Apply(loop, t, es[0]);
      if es[0].Iterate? && t.pc == InBody {
        var tail := next.log[|t.log|..];
        BodyDrawsAtMostOnce(loop, t, es[0].acq);
        assert next.log == t.log + tail;
        CountDrawsAppend(t.log, tail);
        StoppedAtTestIssuesNothing(loop, next, es[1..]);
      } else {
        assert next.log == t.log;
        AtMostOneFrameAfterExit(loop, next, es[1..]);
      }
    }
  }

  /** Either body only appends to the log, and issues at most one
      `onDrawFrame`. */
  lemma BodyDrawsAtMostOnce(loop: Loop, t: GLThread, acq: Acquisition)
    requires t.pc == InBody
    ensures |t.log| <= |LoopBody(loop, t, acq).log|
    ensures LoopBody(loop, t, acq).log[..|t.log|] == t.log
    ensures CountDraws(LoopBody(loop, t, acq).log[|t.log|..]) <= 1
  {
    var r := LoopBody(loop, t, acq);
    var tail := r.log[|t.log|..];
    assert r.log == t.log + tail;
    assert forall i :: 0 <= i < |tail| - 1 ==> tail[i] != DrawFrame;
    CountDrawsPrefix(tail);
  }

  /** A log whose only possible draw is its last entry has at most one. */
  lemma CountDrawsPrefix(log: seq<Callback>)
    requires forall i :: 0 <= i < |log| - 1 ==> log[i] != DrawFrame
    ensures CountDraws(log) <= 1
  {
    if |log| > 0 {
      NoDraws(log[..|log| - 1]);
    }
  }

  lemma {:induction false} NoDraws(log: seq<Callback>)
    requires forall i :: 0 <= i < |log| ==> log[i] != DrawFrame
    ensures CountDraws(log) == 0
    decreases |log|
  {
    if |log| > 0 {
      NoDraws(log[..|log| - 1]);
    }
  }

  /** The extra frame is real, under either body: a thread that has passed
      the loop test when the exit request arrives still draws once. */
  lemma ExitRequestStillDrawsOnce(loop: Loop, t: GLThread, acq1: Acquisition, acq2: Acquisition)
    requires t.pc == Lock && t.surface == Current && !t.sizeChanged
    ensures Step(loop, Step(loop, RequestExit(t), acq1), acq2).log == t.log + [DrawFrame]
  {
  }

  /** `join`: after the exit request the thread finishes within three
      steps, at the latest after one last body. */
  function Join(loop: Loop, t: GLThread, acq: Acquisition): (r: GLThread)
    requires !t.running
    ensures r.pc == Exited && !r.running
    ensures CountDraws(r.log) <= CountDraws(t.log) + 1
    ensures OrderInv(t) ==> OrderInv(r)
    ensures loop == Corrected && Inv(t) ==> Inv(r)
  {
    var es := [Iterate(acq), Iterate(acq), Iterate(acq)];
    AtMostOneFrameAfterExit(loop, t, es);
    RunKeepsInv(loop, t, es);
    ThreeSteps(loop, t, acq);
    RunThread(loop, t, es)
  }

  lemma ThreeSteps(loop: Loop, t: GLThread, acq: Acquisition)
    ensures RunThread(loop, t, [Iterate(acq), Iterate(acq), Iterate(acq)])
         == Step(loop, Step(loop, Step(loop, t, acq), acq), acq)
  {
    var e := Iterate(acq);
    var t1 := Step(loop, t, acq);
    var t2 := Step(loop, t1, acq);
    assert [e, e, e][1..] == [e, e];
    assert [e, e][1..] == [e];
    assert [e][1..] == [];
    assert RunThread(loop, t2, [e]) == RunThread(loop, Step(loop, t2, acq), []);
    assert RunThread(loop, t1, [e, e]) == RunThread(loop, t2, [e]);
    assert RunThread(loop, t, [e, e, e]) == RunThread(loop, t1, [e, e]);
  }

  lemma RunKeepsInv(loop: Loop, t: GLThread, es: seq<ThreadEvent>)
    ensures OrderInv(t) ==> OrderInv(RunThread(loop, t, es))
    ensures loop == Corrected && Inv(t) ==> Inv(RunThread(loop, t, es))
  {
    if OrderInv(t) { SurfaceCreatedOnce(loop, t, es); }
    if loop == Corrected && Inv(t) { CreatedBeforeAnyOtherCallback(t, es); }
  }
}
