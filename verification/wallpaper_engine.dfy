/** The GL wallpaper engine's lifecycle handlers: they start, resize, pause,
    resume and tear down the render thread in response to host events. */
module WallpaperEngine {
  import opened Options
  import opened RenderThread

  /** The engine's render thread, if one exists, and the callback logs of
      the threads it has joined, oldest first. */
  datatype Engine = Engine(thread: Option<GLThread>, joined: seq<seq<Callback>>)

  /** The engine before its first surface. */
  const Fresh: Engine := Engine(None, [])

  /** `onSurfaceCreated`: a thread is started only for a non-null holder
      and only when none exists. */
  function OnSurfaceCreated(e: Engine, holderPresent: bool): (r: Engine)
    ensures !holderPresent || e.thread.Some? ==> r == e
    ensures holderPresent && e.thread.None? ==> r.thread == Some(Start()) && r.joined == e.joined
    ensures holderPresent ==> r.thread.Some?
  {
    if !holderPresent then e
    else if e.thread.None? then e.(thread := Some(Start()))
    else e
  }

  /** Repeated surface-created events never start a second thread. */
  lemma SurfaceCreatedIdempotent(e: Engine, holderPresent: bool)
    ensures OnSurfaceCreated(OnSurfaceCreated(e, true), holderPresent) == OnSurfaceCreated(e, true)
  {
  }

  /** `onSurfaceChanged`: forwards the new size to the thread, if any. */
  function OnSurfaceChanged(e: Engine, w: int, h: int): (r: Engine)
    ensures r.joined == e.joined && r.thread.Some? == e.thread.Some?
    ensures e.thread.Some? ==>
      var t := r.thread.value;
      t.width == w && t.height == h && t.sizeChanged
      && t.(width := e.thread.value.width, height := e.thread.value.height,
            sizeChanged := e.thread.value.sizeChanged) == e.thread.value
  {
    match e.thread
    case None => e
    case Some(t) => e.(thread := Some(OnWindowResize(t, w, h)))
  }

  /** `onVisibilityChanged`: visible resumes, invisible pauses; nothing
      else changes. */
  function OnVisibilityChanged(e: Engine, visible: bool): (r: Engine)
    ensures r.joined == e.joined && r.thread.Some? == e.thread.Some?
    ensures e.thread.Some? ==> r.thread.value == e.thread.value.(paused := !visible)
  {
    match e.thread
    case None => e
    case Some(t) => e.(thread := Some(if visible then ResumeRendering(t) else PauseRendering(t)))
  }

  /** `onSurfaceDestroyed` and `onDestroy`, which run the same code:
      `requestExitAndWait` followed by dropping the reference. The join runs
      the thread to its end with the given loop body; `acq` is the outcome of
      an acquisition the last body may attempt. */
  function StopThread(loop: Loop, e: Engine, acq: Acquisition): (r: Engine)
    ensures r.thread.None?
    ensures e.thread.None? ==> r == e
    ensures e.thread.Some? ==>
      && |r.joined| == |e.joined| + 1 && r.joined[..|e.joined|] == e.joined
      && CountDraws(r.joined[|e.joined|]) <= CountDraws(e.thread.value.log) + 1
      && (OrderInv(e.thread.value) ==> CreatedOnceBeforeChanged(r.joined[|e.joined|]))
      && (loop == Corrected && Inv(e.thread.value) ==> CreatedFirstAndOnce(r.joined[|e.joined|]))
  {
    match e.thread
    case None => e
    case Some(t) =>
      var done := Join(loop, RequestExit(t), acq);
      assert Inv(t) ==> Inv(RequestExit(t));
      assert OrderInv(t) ==> OrderInv(RequestExit(t));
      Engine(None, e.joined + [done.log])
  }

  /** After the surface is destroyed, the next surface gets a fresh thread. */
  lemma DestroyThenCreateStartsFresh(loop: Loop, e: Engine, acq: Acquisition)
    ensures OnSurfaceCreated(StopThread(loop, e, acq), true).thread == Some(Start())
  {
  }

  /** One step of the render thread's loop, if a thread exists. */
  function ThreadStep(loop: Loop, e: Engine, acq: Acquisition): (r: Engine)
    ensures r.joined == e.joined && r.thread.Some? == e.thread.Some?
    ensures e.thread.Some? ==> r.thread.value.running == e.thread.value.running
  {
    match e.thread
    case None => e
    case Some(t) => e.(thread := Some(Step(loop, t, acq)))
  }

  /** Host events and loop steps, interleaved. */
  datatype Event =
    | SurfaceCreated(holderPresent: bool)
    | SurfaceChanged(w: int, h: int)
    | SurfaceDestroyed(acq: Acquisition)
    | Visibility(visible: bool)
    | Destroy(acq: Acquisition)
    | LoopStep(acq: Acquisition)

  function Apply(loop: Loop, e: Engine, ev: Event): Engine {
    match ev
    case SurfaceCreated(h) => OnSurfaceCreated(e, h)
    case SurfaceChanged(w, h) => OnSurfaceChanged(e, w, h)
    case SurfaceDestroyed(acq) => StopThread(loop, e, acq)
    case Visibility(v) => OnVisibilityChanged(e, v)
    case Destroy(acq) => StopThread(loop, e, acq)
    case LoopStep(acq) => ThreadStep(loop, e, acq)
  }

  function Run(loop: Loop, e: Engine, evs: seq<Event>): Engine
    decreases |evs|
  {
    if |evs| == 0 then e else Run(loop, Apply(loop, e, evs[0]), evs[1..])
  }

  /** The engine invariant: a live thread is running, not past its loop,
      and keeps the order invariant (and, with the corrected body, the full
      thread invariant); every joined thread issued `onSurfaceCreated` at
      most once and before any `onSurfaceChanged` (and, with the corrected
      body, before every other callback). */
  ghost predicate Valid(loop: Loop, e: Engine) {
    && (e.thread.Some? ==>
          && e.thread.value.running && e.thread.value.pc != Exited
          && OrderInv(e.thread.value)
          && (loop == Corrected ==> Inv(e.thread.value)))
    && (forall i :: 0 <= i < |e.joined| ==>
          && CreatedOnceBeforeChanged(e.joined[i])
          && (loop == Corrected ==> CreatedFirstAndOnce(e.joined[i])))
  }

  lemma {:induction false} ApplyKeepsValid(loop: Loop, e: Engine, ev: Event)
    requires Valid(loop, e)
    ensures Valid(loop, Apply(loop, e, ev))
  {
    var r := Apply(loop, e, ev);
    match ev
    case SurfaceCreated(h) => StartInv();
    case SurfaceChanged(w, h) =>
    case Visibility(v) =>
    case SurfaceDestroyed(acq) =>
      forall i | 0 <= i < |r.joined|
        ensures CreatedOnceBeforeChanged(r.joined[i])
        ensures loop == Corrected ==> CreatedFirstAndOnce(r.joined[i])
      {
        if i < |e.joined| { assert r.joined[i] == e.joined[i]; }
      }
    case Destroy(acq) =>
      forall i | 0 <= i < |r.joined|
        ensures CreatedOnceBeforeChanged(r.joined[i])
        ensures loop == Corrected ==> CreatedFirstAndOnce(r.joined[i])
      {
        if i < |e.joined| { assert r.joined[i] == e.joined[i]; }
      }
    case LoopStep(acq) =>
      if e.thread.Some? {
        ApplyKeepsOrder(loop, e.thread.value, Iterate(acq));
        if loop == Corrected { ApplyKeepsInv(e.thread.value, Iterate(acq)); }
      }
  }

  /** Over any sequence of host events and loop steps, at most one render
      thread exists at a time and the engine invariant holds, with either
      loop body. */
  lemma {:induction false} RunKeepsValid(loop: Loop, e: Engine, evs: seq<Event>)
    requires Valid(loop, e)
    ensures Valid(loop, Run(loop, e, evs))
    decreases |evs|
  {
    if |evs| > 0 {
      ApplyKeepsValid(loop, e, evs[0]);
      RunKeepsValid(loop, Apply(loop, e, evs[0]), evs[1..]);
    }
  }

  /** From a fresh engine, every thread's log, live or joined, has
      `onSurfaceCreated` at most once and before any `onSurfaceChanged`,
      with either body; with the corrected body it also comes before every
      draw. */
  lemma FromFresh(loop: Loop, evs: seq<Event>)
    ensures var r := Run(loop, Fresh, evs);
      && (r.thread.Some? ==> CreatedOnceBeforeChanged(r.thread.value.log))
      && (forall i :: 0 <= i < |r.joined| ==> CreatedOnceBeforeChanged(r.joined[i]))
      && (loop == Corrected ==>
            && (r.thread.Some? ==> CreatedFirstAndOnce(r.thread.value.log))
            && (forall i :: 0 <= i < |r.joined| ==> CreatedFirstAndOnce(r.joined[i])))
  {
    RunKeepsValid(loop, Fresh, evs);
  }

  /** Bug (as written), at the engine: a surface whose first acquisition
      cannot be made current is drawn to before `onSurfaceCreated`, so the
      corrected body's guarantee in `FromFresh` does not hold as written. */
  lemma AsWrittenEngineDrawsBeforeCreated()
    ensures var r := Run(AsWritten, Fresh,
              [Event.SurfaceCreated(true), LoopStep(Acquired), LoopStep(Acquired), LoopStep(MakeCurrentFailed),
               LoopStep(Acquired), LoopStep(Acquired), LoopStep(Acquired)]);
      r.thread.Some? && r.thread.value.log == [DrawFrame]
  {
    AsWrittenDrawsBeforeCreated();
  }
}
