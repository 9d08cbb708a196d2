# Energy-burst live wallpaper: a Dafny model of the simulation and render loop

This project models the core of an Android OpenGL live wallpaper that draws a
"hyperspace" energy burst: thousands of point particles stream out of a
centre. The particles are layered by depth, shifted by gyroscope parallax and
sped up by touch ("warp"). The model covers three parts:

- **The burst simulation state** of the two renderer variants:
  - the stand-alone `EnergyBurstRenderer` used by the preview, with its lazily
    applied settings (module `EnergyBurst`);
  - the inner renderer that the wallpaper service installs, with fixed speeds
    and touch-driven warp (module `ServiceRenderer`).

  Both share the tilt and clock logic (`Motion`), particle generation
  (`BurstField`) and the vertex-shader math (`BurstShader`). The inner
  renderer's shader text (MyWallpaperService.kt lines 68-101) is the same
  math as EnergyBurstRenderer.kt lines 54-75, so it is modelled once.
- **The render loop** of `GLWallpaperService`:
  - `GLThread` as a sequential state machine (`RenderThread`). Its control
    points are the loop test, the locked pause block, the body and the exit.
    Host calls interleave between steps.
  - `GLEngine`'s lifecycle handlers around that thread (`WallpaperEngine`).

  Renderer callbacks (`onSurfaceCreated`, `onSurfaceChanged`, `onDrawFrame`)
  are recorded in a log, which is the observable trace.
- **`Particle`**: the tunnel-particle record with its random constructor and
  its respawn (`Particles`).

Kotlin `Float`s are modelled as `real`. The host supplies the values of
`sin`, `cos`, `acos` and `pow`, and the draws of the random generator, as
parameters constrained to their ranges. Android colour integers are modelled
with their real packing, `0xFF000000 | r << 16 | g << 8 | b` read as a signed
32-bit value, so that `Color.red` and its siblings are the shifts and masks
they are (`AndroidColor`).

Behaviour the model keeps as the code has it:

- A settings change only marks the renderer dirty. The next frame applies the
  settings before it advances time, and applying them drops an active warp
  (`EnergyBurst.DirtyFrameAppliesSettingsFirst`).
- The pause block leaves only the `synchronized` block on
  `return@synchronized`. A thread that passed the loop test, or was waiting
  while paused, when the exit was requested therefore still runs the body
  once and can draw one more frame. `RenderThread.ExitRequestStillDrawsOnce`
  shows that this happens. `RenderThread.AtMostOneFrameAfterExit` shows that
  it happens at most once.
- `onSurfaceDestroyed` and `onDestroy` run identical code (request exit, join,
  drop the thread). Both are modelled by `WallpaperEngine.StopThread`.

Further points of the code's behaviour:

- The particle count is the constant 4000, with no configurable count.
- Any theme other than `"custom"` uses the five sci-fi colours.
- The distance curve `t^2.5 * 5 + (1 - t) * pulse * 0.1` dips just after the
  core when the pulse is positive (`BurstShader.DistanceDipsNearCore`).
- The fade-out ends at alpha 0.01 at `t = 1` (`BurstShader.FadeAlpha`).
- `Particle` is a data type with a random constructor and a respawn; no code
  in the modelled files moves particles along.

The render thread is modelled with either loop body (`RenderThread.Loop`):
the body as written, or the body with the make-current bug described under
"## Findings" corrected. Every property that holds for the code as written is
proved for both bodies. The stronger guarantee that `onSurfaceCreated`
precedes every draw is proved for the corrected body only, because the code
as written violates it.

## Model

| member | source | states |
|---|---|---|
| AndroidColor.RgbRoundTrip | app/src/main/java/com/example/mywallpaperservicekt/EnergyBurstRenderer.kt:148-152 | a colour packed by `Color.rgb` gives back the same red, green and blue channels |
| AndroidColor.ToAttribute | app/src/main/java/com/example/mywallpaperservicekt/EnergyBurstRenderer.kt:170-173 | a particle colour attribute has channels in [0, 1] that are the 8-bit channels over 255, and alpha exactly 1 |
| Motion.Clamp | app/src/main/java/com/example/mywallpaperservicekt/EnergyBurstRenderer.kt:263-264 | `coerceIn` returns a value within the bounds, the input itself when it is inside, the nearer bound otherwise |
| Motion.OnSensorChanged | app/src/main/java/com/example/mywallpaperservicekt/EnergyBurstRenderer.kt:258-267 | after a gyroscope sample both targets are in [-0.6, 0.6]; the sample is added with gain 0.12 (accumulated, not assigned) whenever the sum stays in range, and a sum beyond +0.6 or below -0.6 leaves the target exactly at that bound, on each axis; a null or non-gyroscope event changes nothing; the eased parallax is untouched |
| Motion.FeedApproaches | app/src/main/java/com/example/mywallpaperservicekt/EnergyBurstRenderer.kt:258-267 | after n gyroscope samples each pushing an axis one way by at least `rate`, that target has moved at least n x rate x 0.12 that way, or up to the clamp, on both axes and in either direction |
| Motion.SustainedTiltSaturates | app/src/main/java/com/example/mywallpaperservicekt/EnergyBurstRenderer.kt:258-267 | from any in-range target, enough samples pushing one way (n x rate x 0.12 >= 1.2) leave each axis's target exactly at that side's clamp, +0.6 or -0.6 |
| Motion.SensorPreservesBounds | app/src/main/java/com/example/mywallpaperservicekt/EnergyBurstRenderer.kt:258-267 | a sensor event keeps parallax and target within +-0.6 |
| Motion.Ease | app/src/main/java/com/example/mywallpaperservicekt/EnergyBurstRenderer.kt:224-225 | per frame the gap between parallax and target shrinks by exactly the factor 0.92; the target is unchanged |
| Motion.EasePreservesBounds | app/src/main/java/com/example/mywallpaperservicekt/EnergyBurstRenderer.kt:224-225 | easing keeps a parallax in [-0.6, 0.6] when it and its target start there |
| Motion.EaseFramesGap | app/src/main/java/com/example/mywallpaperservicekt/EnergyBurstRenderer.kt:224-225 | after n frames with a fixed target the gap is the initial gap times 0.92^n |
| Motion.DecayBound | app/src/main/java/com/example/mywallpaperservicekt/EnergyBurstRenderer.kt:224-225 | the easing factor obeys 0 < 0.92^n and 0.92^n (1 + 0.08 n) <= 1 |
| Motion.Converges | app/src/main/java/com/example/mywallpaperservicekt/EnergyBurstRenderer.kt:224-225 | with a fixed target, parallax is within eps of it on both axes from frame floor(gap / (0.08 eps)) + 1 on |
| Motion.SelectSpeed | app/src/main/java/com/example/mywallpaperservicekt/EnergyBurstRenderer.kt:216-218 | the selected speed is the warp speed when active and the base speed otherwise |
| Motion.Advance | app/src/main/java/com/example/mywallpaperservicekt/EnergyBurstRenderer.kt:222 | for sin in [-1, 1] the per-frame advance lies between 0.085 and 0.115 times a non-negative speed, and is 0 at speed 0 (real arithmetic; see "## Left out" for `Float` rounding) |
| Motion.AdvanceTime | app/src/main/java/com/example/mywallpaperservicekt/EnergyBurstRenderer.kt:222-223 | given sin in [-1, 1], a frame advances time by between 0.085 and 0.115 times the current speed, so time strictly increases when the speed is positive (real arithmetic; a `Float` time stops advancing after 2^17, see "## Left out") |
| Motion.Pulse | app/src/main/java/com/example/mywallpaperservicekt/EnergyBurstRenderer.kt:232 | the pulse uniform lies in [0, 1] |
| BurstField.SpeedForLayer | app/src/main/java/com/example/mywallpaperservicekt/EnergyBurstRenderer.kt:163-165 | speed 0.5 + (1 - layer) * 1.5 lies in (0.5, 2.0] for a layer in [0, 1) |
| BurstField.SizeForLayer | app/src/main/java/com/example/mywallpaperservicekt/EnergyBurstRenderer.kt:163-166 | size 2 + (1 - layer) * 15 lies in (2, 17] for a layer in [0, 1) |
| BurstField.NearerIsFasterAndLarger | app/src/main/java/com/example/mywallpaperservicekt/EnergyBurstRenderer.kt:163-166 | speed and size do not increase with the layer, and strictly decrease with it |
| BurstField.Direction | app/src/main/java/com/example/mywallpaperservicekt/EnergyBurstRenderer.kt:155-159 | each direction component is in [-1, 1], and its z component is the cosine 2u - 1 of `acos(2u - 1)` |
| BurstField.DirectionIsUnit | app/src/main/java/com/example/mywallpaperservicekt/EnergyBurstRenderer.kt:155-159 | given sin^2 + cos^2 = 1 for both angles, the direction has unit length |
| BurstField.Attributes | app/src/main/java/com/example/mywallpaperservicekt/EnergyBurstRenderer.kt:161-173 | a particle has offset in [0, 1), shape in {0, 1, 2}, speed and size determined by its layer and within their bounds, and an opaque colour taken from the palette at the drawn index with channels in [0, 1] |
| BurstField.Flatten | app/src/main/java/com/example/mywallpaperservicekt/EnergyBurstRenderer.kt:157-173 | one particle occupies 3, 4, 4 and 1 floats, and reading them back gives the particle |
| BurstField.Generate | app/src/main/java/com/example/mywallpaperservicekt/EnergyBurstRenderer.kt:141-174 | the arrays have 3N, 4N, 4N and N entries, and particle i read back from them is exactly the particle built from draw i |
| BurstField.GeneratedFieldWellFormed | app/src/main/java/com/example/mywallpaperservicekt/EnergyBurstRenderer.kt:142-145 | with 4000 draws the arrays have 12000, 16000, 16000 and 4000 floats, and every particle in them is within all attribute bounds with a colour from the palette |
| BurstShader.Fract | app/src/main/java/com/example/mywallpaperservicekt/EnergyBurstRenderer.kt:54 | `fract` lies in [0, 1) and differs from its argument by a whole number |
| BurstShader.Phase | app/src/main/java/com/example/mywallpaperservicekt/EnergyBurstRenderer.kt:54 | the progress t lies in [0, 1) for every time, speed and offset |
| BurstShader.FadeAlpha | app/src/main/java/com/example/mywallpaperservicekt/EnergyBurstRenderer.kt:69-71 | for t in [0, 1) the fade is in [0, 1]; it is 1 on [0.1, 0.7], below 1 before, and in (0.01, 1) after |
| BurstShader.FadeShape | app/src/main/java/com/example/mywallpaperservicekt/EnergyBurstRenderer.kt:69-71 | the fade rises up to t = 0.7 and falls from t = 0.1 on |
| BurstShader.Distance | app/src/main/java/com/example/mywallpaperservicekt/EnergyBurstRenderer.kt:55 | the distance from the centre lies in [0, 5.1) |
| BurstShader.DistanceDipsNearCore | app/src/main/java/com/example/mywallpaperservicekt/EnergyBurstRenderer.kt:55 | at full pulse the distance at t = 0.01 is smaller than at t = 0 |
| BurstShader.RotationsPreserveLength | app/src/main/java/com/example/mywallpaperservicekt/EnergyBurstRenderer.kt:36-46 | given sin^2 + cos^2 = 1, both parallax rotations keep the distance from the centre |
| BurstShader.ParallaxScale | app/src/main/java/com/example/mywallpaperservicekt/EnergyBurstRenderer.kt:58 | the per-layer parallax scale lies in (0, 0.8] |
| BurstShader.TiltAngle | app/src/main/java/com/example/mywallpaperservicekt/EnergyBurstRenderer.kt:58-60 | the rotation angle has the sign of the parallax, and for a parallax within +-0.6 it is at most 0.48 radians for every layer |
| BurstShader.Depth | app/src/main/java/com/example/mywallpaperservicekt/EnergyBurstRenderer.kt:62-63 | the projected depth is at least 0.1; it is z + 3 unless that is below 0.1 |
| BurstShader.PointSize | app/src/main/java/com/example/mywallpaperservicekt/EnergyBurstRenderer.kt:66 | the point size is positive for a positive particle size |
| BurstShader.Brightness | app/src/main/java/com/example/mywallpaperservicekt/EnergyBurstRenderer.kt:73-74 | the brightness factor lies in (0.9, 1.9] |
| BurstShader.ShadeColor | app/src/main/java/com/example/mywallpaperservicekt/EnergyBurstRenderer.kt:75 | the output colour has non-negative channels, and its alpha is the input alpha times the fade, no larger than the input alpha |
| BurstShader.Shade | app/src/main/java/com/example/mywallpaperservicekt/EnergyBurstRenderer.kt:48-76 | for every vertex: t in [0, 1), both rotation angles are the layer-scaled parallax angles, depth at least 0.1, positive point size, alpha equal to the attribute alpha times the fade |
| BurstShader.GeneratedParticlesShadeSafely | app/src/main/java/com/example/mywallpaperservicekt/EnergyBurstRenderer.kt:54-75 | every generated particle under a parallax within +-0.6 is shaded with alpha in [0, 1], depth at least 0.1, a positive point size and rotation angles within 0.48 radians |
| EnergyBurst.ActivePalette | app/src/main/java/com/example/mywallpaperservicekt/EnergyBurstRenderer.kt:169 | the custom palette is used exactly when the theme is "custom", the five sci-fi colours otherwise |
| EnergyBurst.Initial | app/src/main/java/com/example/mywallpaperservicekt/EnergyBurstRenderer.kt:115-139 | a new renderer has time 0, current speed equal to base speed 0.08, settings marked dirty, and satisfies the state invariant |
| EnergyBurst.OnSharedPreferenceChanged | app/src/main/java/com/example/mywallpaperservicekt/EnergyBurstRenderer.kt:186-188 | a preference change only sets the dirty flag |
| EnergyBurst.ApplySettings | app/src/main/java/com/example/mywallpaperservicekt/EnergyBurstRenderer.kt:190-203 | it reads the multiplier m (default 1), theme (default "scifi") and five custom colours (defaults white, cyan, magenta, yellow, blue); it sets base = 0.08 m and warp = 0.35 m; the current speed becomes the base speed, cancelling warp; it clears the flag and keeps time and parallax |
| EnergyBurst.SetWarp | app/src/main/java/com/example/mywallpaperservicekt/EnergyBurstRenderer.kt:216-218 | the current speed becomes the warp speed when warp is active and the base speed otherwise; no other field changes |
| EnergyBurst.SetWarpIdempotent | app/src/main/java/com/example/mywallpaperservicekt/EnergyBurstRenderer.kt:216-218 | setting the same warp state twice equals setting it once |
| EnergyBurst.WarpOffRestoresBase | app/src/main/java/com/example/mywallpaperservicekt/EnergyBurstRenderer.kt:216-218 | warp off after warp on restores exactly the base speed and the rest of the state |
| EnergyBurst.OnSensorChanged | app/src/main/java/com/example/mywallpaperservicekt/EnergyBurstRenderer.kt:258-267 | only the parallax target changes, and it changes exactly as `Motion.OnSensorChanged` prescribes (accumulation with gain 0.12, saturation at +-0.6); other events change nothing |
| EnergyBurst.OnDrawFrame | app/src/main/java/com/example/mywallpaperservicekt/EnergyBurstRenderer.kt:220-234 | after a frame no settings are pending; time increases when the speed is positive (in real arithmetic); the target is unchanged and the parallax is `Motion.Ease` of the old one, so the gap to the same target shrinks by 0.92; the uniforms carry the new time, a pulse in [0, 1] and the new parallax; the invariant is kept |
| EnergyBurst.DirtyFrameAppliesSettingsFirst | app/src/main/java/com/example/mywallpaperservicekt/EnergyBurstRenderer.kt:220-223 | after a preference change the next frame installs the new speeds, drops warp, regenerates the field and advances time at the new base speed |
| EnergyBurst.CleanFrameKeepsConfiguration | app/src/main/java/com/example/mywallpaperservicekt/EnergyBurstRenderer.kt:220-225 | without a pending change, a frame changes only time and parallax |
| EnergyBurst.RunKeepsValid | app/src/main/java/com/example/mywallpaperservicekt/EnergyBurstRenderer.kt:186-267 | under any events the state invariant holds: speeds scale with the multiplier, the current speed is base or warp, parallax is within +-0.6, and every particle is well formed for the active palette |
| EnergyBurst.ReachableSpeeds | app/src/main/java/com/example/mywallpaperservicekt/EnergyBurstRenderer.kt:117-120 | from construction on, the current speed is always the base or the warp speed |
| ServiceRenderer.Initial | app/src/main/java/com/example/mywallpaperservicekt/MyWallpaperService.kt:150-172 | a new service renderer runs at 0.08 from time 0, with its field generated from the sci-fi colours |
| ServiceRenderer.SetWarp | app/src/main/java/com/example/mywallpaperservicekt/MyWallpaperService.kt:245-247 | the current speed becomes the warp speed when warp is active and the base speed otherwise; nothing else changes |
| ServiceRenderer.OnSensorChanged | app/src/main/java/com/example/mywallpaperservicekt/MyWallpaperService.kt:293-302 | only the target moves, exactly as `Motion.OnSensorChanged` prescribes: the sample is accumulated with gain 0.12 and saturates at +-0.6 on both axes; other events change nothing |
| ServiceRenderer.OnDrawFrame | app/src/main/java/com/example/mywallpaperservicekt/MyWallpaperService.kt:249-255 | only time and parallax change; time advances by a positive amount of at most 0.115 times the speed (in real arithmetic); the target is unchanged and the parallax is `Motion.Ease` of the old one, so its gap to that target shrinks by 0.92 |
| ServiceRenderer.OnTouchEvent | app/src/main/java/com/example/mywallpaperservicekt/MyWallpaperService.kt:336-345 | down and move turn warp on, up and cancel turn it off, and any other action or a null event leaves the renderer unchanged |
| ServiceRenderer.TouchSelectsFixedSpeeds | app/src/main/java/com/example/mywallpaperservicekt/MyWallpaperService.kt:336-345 | a touch sets the speed to exactly 0.35 (down, move) or 0.08 (up, cancel) |
| ServiceRenderer.RunKeepsValid | app/src/main/java/com/example/mywallpaperservicekt/MyWallpaperService.kt:245-302 | under any events the speeds stay fixed, the current speed is one of them, parallax stays within +-0.6 and the field keeps its sci-fi colours |
| ServiceRenderer.ReachableStates | app/src/main/java/com/example/mywallpaperservicekt/MyWallpaperService.kt:153-155 | with no settings path, the current speed is always exactly 0.08 or 0.35 |
| Particles.RandomAngle | app/src/main/java/com/example/mywallpaperservicekt/Particle.kt:28 | a drawn angle lies in [0, 2 pi) |
| Particles.CreateRandom | app/src/main/java/com/example/mywallpaperservicekt/Particle.kt:26-34 | angle is in [0, 2 pi), z and layer in [0, 1), twist rate in [0.3, 0.7), and the colour is one of the five `COLORS` |
| Particles.RespawnAtCenter | app/src/main/java/com/example/mywallpaperservicekt/Particle.kt:37-41 | z becomes exactly 1, the angle is redrawn into [0, 2 pi), the colour is one of `COLORS`, and layer and twist rate are unchanged |
| Particles.RespawnIdempotent | app/src/main/java/com/example/mywallpaperservicekt/Particle.kt:37-41 | respawning again with the same draws gives the same particle |
| RenderThread.Start | app/src/main/java/com/example/mywallpaperservicekt/GLWallpaperService.kt:75-79 | a new thread is running, unpaused, has no pending resize, sits before its loop and has issued nothing |
| RenderThread.RequestExit | app/src/main/java/com/example/mywallpaperservicekt/GLWallpaperService.kt:82-86 | an exit request only clears `running` |
| RenderThread.OnWindowResize | app/src/main/java/com/example/mywallpaperservicekt/GLWallpaperService.kt:94-101 | a resize stores width and height and sets `sizeChanged`, and nothing else |
| RenderThread.LastResizeWins | app/src/main/java/com/example/mywallpaperservicekt/GLWallpaperService.kt:94-101 | of two resizes before the loop consumes them, the last one wins |
| RenderThread.PauseRendering | app/src/main/java/com/example/mywallpaperservicekt/GLWallpaperService.kt:103-108 | pausing sets only `paused` |
| RenderThread.ResumeRendering | app/src/main/java/com/example/mywallpaperservicekt/GLWallpaperService.kt:110-115 | resuming clears only `paused` |
| RenderThread.BodyAsWritten | app/src/main/java/com/example/mywallpaperservicekt/GLWallpaperService.kt:155-188 | the body as written: a failed acquisition issues nothing, and a make-current failure leaves a surface that was never made current; a successful one issues `onSurfaceCreated` only the first time, `onSurfaceChanged` with the stored size if a resize is pending, then one draw; with any surface held and no resize pending, even one never made current, it only draws; `running`, `paused` and the size are untouched |
| RenderThread.Body | app/src/main/java/com/example/mywallpaperservicekt/GLWallpaperService.kt:155-188 | the corrected body: a failed acquisition issues nothing and keeps a pending resize; a successful one with a pending resize issues `onSurfaceCreated` the first time, then `onSurfaceChanged` with the stored size and a draw, and clears the flag; with a current surface and no resize it only draws; it never leaves a surface that was not made current, and differs from the body as written only by forgetting such a surface |
| RenderThread.Step | app/src/main/java/com/example/mywallpaperservicekt/GLWallpaperService.kt:145-193 | one step of the loop, with either body: the loop test exits once `running` is false; the lock block waits while running and paused, and otherwise falls through to the body even when `running` is false; only the body issues callbacks |
| RenderThread.CreatedBeforeAnyOtherCallback | app/src/main/java/com/example/mywallpaperservicekt/GLWallpaperService.kt:176-187 | with the corrected body, under any interleaving of host calls and loop steps, `onSurfaceCreated` is issued at most once per thread, and before any `onSurfaceChanged` or `onDrawFrame` |
| RenderThread.SurfaceCreatedOnce | app/src/main/java/com/example/mywallpaperservicekt/GLWallpaperService.kt:155-188 | with either body, including as written, under any interleaving `onSurfaceCreated` is issued at most once per thread, and every `onSurfaceChanged` after it |
| RenderThread.AsWrittenDrawsBeforeCreated | app/src/main/java/com/example/mywallpaperservicekt/GLWallpaperService.kt:169-172 | as written, a make-current failure with no pending resize leads to `onDrawFrame` before `onSurfaceCreated` |
| RenderThread.CorrectedRetriesAcquisition | app/src/main/java/com/example/mywallpaperservicekt/GLWallpaperService.kt:169-172 | with the correction, the same failure is followed by a fresh acquisition, `onSurfaceCreated` and then the draw |
| RenderThread.ResizeDeliveredOnAcquisition | app/src/main/java/com/example/mywallpaperservicekt/GLWallpaperService.kt:161-184 | with either body, after a resize a successful acquisition issues `onSurfaceChanged` with that size followed by the draw; a failed one issues nothing and keeps the resize pending |
| RenderThread.PausedDrawsNothing | app/src/main/java/com/example/mywallpaperservicekt/GLWallpaperService.kt:147-153 | with either body, while running and paused any number of loop steps issues no callback |
| RenderThread.AtMostOneFrameAfterExit | app/src/main/java/com/example/mywallpaperservicekt/GLWallpaperService.kt:145-193 | with either body, once `running` is false, whatever follows, at most one more frame is drawn |
| RenderThread.ExitRequestStillDrawsOnce | app/src/main/java/com/example/mywallpaperservicekt/GLWallpaperService.kt:147-188 | with either body, a thread past the loop test when exit is requested still draws one frame |
| RenderThread.Join | app/src/main/java/com/example/mywallpaperservicekt/GLWallpaperService.kt:87-92 | with either body, joining a stopped thread ends with its loop exited and at most one more frame drawn, and keeps the order invariant (and, with the corrected body, the full thread invariant) |
| WallpaperEngine.OnSurfaceCreated | app/src/main/java/com/example/mywallpaperservicekt/GLWallpaperService.kt:44-51 | a thread is started only for a non-null holder when none exists; otherwise nothing changes |
| WallpaperEngine.SurfaceCreatedIdempotent | app/src/main/java/com/example/mywallpaperservicekt/GLWallpaperService.kt:44-51 | repeated surface-created events never start a second thread |
| WallpaperEngine.OnSurfaceChanged | app/src/main/java/com/example/mywallpaperservicekt/GLWallpaperService.kt:59-62 | a live thread gets the new size with `sizeChanged` set and nothing else changes; without a thread nothing happens |
| WallpaperEngine.OnVisibilityChanged | app/src/main/java/com/example/mywallpaperservicekt/GLWallpaperService.kt:35-42 | visible clears and invisible sets `paused` on the live thread, and nothing else changes |
| WallpaperEngine.StopThread | app/src/main/java/com/example/mywallpaperservicekt/GLWallpaperService.kt:53-57 | surface destruction (and `onDestroy`, lines 64-68), with either body: with no thread nothing changes; otherwise the stopped thread's log is appended to the joined logs with at most one more frame than before the exit request, still with `onSurfaceCreated` at most once and before any `onSurfaceChanged` (and, with the corrected body, before everything else), and the reference is cleared |
| WallpaperEngine.DestroyThenCreateStartsFresh | app/src/main/java/com/example/mywallpaperservicekt/GLWallpaperService.kt:44-57 | after the thread is stopped, the next surface-created event starts a fresh thread |
| WallpaperEngine.ThreadStep | app/src/main/java/com/example/mywallpaperservicekt/GLWallpaperService.kt:145-193 | a loop step, with either body, touches only the live thread and not its `running` flag; it neither creates nor drops a thread |
| WallpaperEngine.RunKeepsValid | app/src/main/java/com/example/mywallpaperservicekt/GLWallpaperService.kt:26-68 | with either body, under any host events and loop steps, a live thread keeps running, and every thread issues `onSurfaceCreated` at most once and before any `onSurfaceChanged`; with the corrected body, the full thread invariant also holds and `onSurfaceCreated` comes before every other callback |
| WallpaperEngine.FromFresh | app/src/main/java/com/example/mywallpaperservicekt/GLWallpaperService.kt:26-68 | from a fresh engine, with either body, every thread's log, live or joined, has `onSurfaceCreated` at most once and before any `onSurfaceChanged`; with the corrected body it also comes before every draw |
| WallpaperEngine.AsWrittenEngineDrawsBeforeCreated | app/src/main/java/com/example/mywallpaperservicekt/GLWallpaperService.kt:44-51 | with the body as written, a surface created and then failing make-current leads the engine's thread to draw before `onSurfaceCreated`, so the stronger order fails as written |

## Left out

- All GLES and EGL calls: shader compilation and linking, buffer allocation and attribute binding, `glDrawArrays`, `eglSwapBuffers`, and EGL display, config and context set-up and teardown. They are foreign graphics APIs. Draws and renderer callbacks appear only as log entries.
- Threading itself: locks, `wait`/`notifyAll`, `join`, `@Volatile` and interrupt handling. Host calls and loop steps are atomic interleaved steps. The 100 ms back-off sleep is an iteration that issues nothing.
- Exact `Float` rounding. All arithmetic is on reals, `Math.PI.toFloat()` is its decimal value, and a rounded product that could reach 2 pi exactly is not modelled.
- Motion.AdvanceTime: the band of 0.085 to 0.115 times the speed and the strict increase of `time` are facts about real numbers. In the code `time` is a 32-bit `Float`, and each base-speed step at multiplier 1 is about 0.007 to 0.009. Once `time` passes 2^17 an ulp is about 0.0156, so a step rounds to 0 as soon as sin(time/2) < -0.156. After that `time`, and so sin(time/2), never changes again, and the animation stands still until warp raises the step. Past 2^18 no base-speed step at multiplier 1 moves `time` at all. Before the freeze a step can also round up to one ulp, outside the band. Motion.Advance, EnergyBurst.OnDrawFrame and ServiceRenderer.OnDrawFrame carry the same real-number promise and do not model this rounding.
- The values of `sin`, `cos`, `acos`, `pow` and `atan`. They are inputs constrained to their ranges.
- The random generator and its time seed. Each draw is an input in [0, 1) or in its index range.
- Reading and writing `SharedPreferences`. The renderer receives a snapshot of the stored values.
- Sensor registration and unregistration (`cleanup`), and the engine's call to it when the wallpaper becomes invisible.
- The renderers' `onSurfaceCreated` and `onSurfaceChanged`. They only compile shaders, register the sensor, and set the viewport and the aspect ratio `width / height`. The shader's division by that aspect ratio and the `atan` orientation angle are left out with them.
- The fragment shader's per-pixel shape mask, which is per-pixel float shading.
- `GLEngine.onCreate` and the renderer it creates (the `renderer!!` null case), the empty `onAccuracyChanged`, and the inner renderer's empty `onSharedPreferenceChanged`. The inner renderer's lack of a settings path is modelled by its absence.
- `Star.kt`, `SpiralLayer.kt`, `MainActivity.kt` and `SettingsActivity.kt`: data holders not used by the modelled code, and UI screens.
- Motion.OnSensorChanged: requires a gyroscope event to carry at least two readings, which the platform guarantees. A shorter array would throw in the source.
- BurstField.DirectionIsUnit: unit length is proved only under the sine/cosine identity, which is stated as a precondition because the trigonometric values are inputs.
- BurstShader.RotationsPreserveLength: proved under the same identity, stated as a precondition.
- WallpaperEngine.RunKeepsValid: with the body as written it promises only that `onSurfaceCreated` comes at most once and before any `onSurfaceChanged`, not before every draw, because the code as written breaks that order (see "## Findings").
- WallpaperEngine.FromFresh: the same restriction for the body as written, for the same reason.

## Findings

| source | as written | input that shows it | evidently intended | confidence | as-written member | corrected member |
|---|---|---|---|---|---|---|
| app/src/main/java/com/example/mywallpaperservicekt/GLWallpaperService.kt:169-172 | when `eglMakeCurrent` fails, the loop sleeps and continues but keeps the new surface in `surface`; with no resize pending, the next iteration skips acquisition and goes straight to `onDrawFrame` | thread started before any resize; first iteration: surface created, `eglMakeCurrent` returns false; second iteration: `onDrawFrame` is issued with no current context and before `onSurfaceCreated` (the same happens when creation yields `EGL_NO_SURFACE` instead of throwing) | retry acquisition until a surface is current, so that `onSurfaceCreated` precedes every draw | medium; not executed | RenderThread.AsWrittenDrawsBeforeCreated | RenderThread.CorrectedRetriesAcquisition |

The corrected body (`RenderThread.Body`) destroys and forgets a surface that
could not be made current. The thread and engine models take the body as a
parameter (`RenderThread.Loop`). `RenderThread.CreatedBeforeAnyOtherCallback`
and `WallpaperEngine.FromFresh` prove the intended ordering for the corrected
body. `RenderThread.AsWrittenDrawsBeforeCreated` and
`WallpaperEngine.AsWrittenEngineDrawsBeforeCreated` show that the code as
written breaks it.
