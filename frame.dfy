/** The fixed sequence of calls one frame makes once the events are handled:
    camera refresh, target selection, clearing, drawing, post-processing,
    overlay, presentation. */
module Frame {
  import opened Wrappers
  import opened RenderModes
  import opened Collaborators
  import E = Events

  /** The outcome of one frame step: the process panics (no camera for the
      frame), or the frame is presented, after which the caller continues
      exactly when `continues` holds, and the pacer sleeps `sleep`
      nanoseconds. */
  datatype FrameResult = Panicked | Presented(continues: bool, sleep: nat)

  /** Both cameras are told the canvas size and then updated, the planar
      camera first each time. */
  function RefreshCalls(size: Size): seq<Call> {
    [ CamHandle(TwoD, E.FramebufferSize(size.w, size.h)),
      CamHandle(ThreeD, E.FramebufferSize(size.w, size.h)),
      CamUpdate(TwoD),
      CamUpdate(ThreeD) ]
  }

  /** Where the scene is drawn: into the offscreen target when post-processing
      will read it, otherwise straight to the screen. */
  function SceneTarget(effect: Option<Effect>): Target {
    if effect.Some? then Offscreen else Screen
  }

  /** The renderer of the current mode draws, when supplied; the 3D renderer
      draws pass 1. */
  function DrawCalls(mode: RenderMode, renderer: Option<Renderer>, planarRenderer: Option<PlanarRenderer>): seq<Call> {
    match mode
    case ThreeD => if renderer.Some? then [Render3D(1)] else []
    case TwoD => if planarRenderer.Some? then [Render2D] else []
  }

  /** With an effect, the screen is selected again, then the effect is given
      the fixed time step, the canvas size and the 3D camera's clip planes,
      and draws from the offscreen target. */
  function PostCalls(size: Size, camera: Camera, effect: Option<Effect>): seq<Call> {
    if effect.Some? then
      [Select(Screen), PostUpdate(PostProcessDt, size, camera.znear, camera.zfar), PostDraw(Offscreen)]
    else []
  }

  /** The text overlay, then the UI overlay when the UI is built in. */
  function OverlayCalls(size: Size, hasUi: bool): seq<Call> {
    [RenderText(size)] + (if hasUi then [RenderUi(size)] else [])
  }

  /** The calls of a frame after the camera refresh. */
  function AfterRefresh(mode: RenderMode, size: Size, background: Color, camera: Camera,
                        renderer: Option<Renderer>, planarRenderer: Option<PlanarRenderer>,
                        effect: Option<Effect>, hasUi: bool): seq<Call>
  {
    [Select(SceneTarget(effect)), Clear(background)]
    + DrawCalls(mode, renderer, planarRenderer) + PostCalls(size, camera, effect)
    + OverlayCalls(size, hasUi) + [Swap]
  }

  /** All calls of one frame, in order: the camera refresh, then the rest of
      the frame, ending with the buffer swap. */
  function FrameCalls(mode: RenderMode, size: Size, background: Color, camera: Camera,
                      renderer: Option<Renderer>, planarRenderer: Option<PlanarRenderer>,
                      effect: Option<Effect>, hasUi: bool): seq<Call>
  {
    RefreshCalls(size) + AfterRefresh(mode, size, background, camera, renderer, planarRenderer, effect, hasUi)
  }

  /** Index, within a frame's calls, of the draw call if there is one. */
  const DrawStart: nat := 6

  /** Whatever the mode, each camera is handed the canvas size exactly once,
      and nothing else during the frame. */
  lemma FrameTellsEachCameraTheSize(mode: RenderMode, size: Size, background: Color, camera: Camera,
                                    renderer: Option<Renderer>, planarRenderer: Option<PlanarRenderer>,
                                    effect: Option<Effect>, hasUi: bool, cam: RenderMode)
    ensures CameraEvents(FrameCalls(mode, size, background, camera, renderer, planarRenderer, effect, hasUi), cam)
            == [E.FramebufferSize(size.w, size.h)]
  {
    var rest := AfterRefresh(mode, size, background, camera, renderer, planarRenderer, effect, hasUi);
    AfterRefreshTouchesNoCamera(mode, size, background, camera, renderer, planarRenderer, effect, hasUi, cam);
    RefreshTouchesEachCameraOnce(size, cam);
    CameraEventsAppend(RefreshCalls(size), rest, cam);
  }

  /** Whatever the mode, each camera is updated exactly once per frame, after
      it has been handed the canvas size. */
  lemma FrameUpdatesEachCameraOnce(mode: RenderMode, size: Size, background: Color, camera: Camera,
                                   renderer: Option<Renderer>, planarRenderer: Option<PlanarRenderer>,
                                   effect: Option<Effect>, hasUi: bool, cam: RenderMode)
    ensures var calls := FrameCalls(mode, size, background, camera, renderer, planarRenderer, effect, hasUi);
            && Count(calls, CamUpdate(cam)) == 1
            && exists i, j :: 0 <= i < j < |calls| && calls[i] == CamHandle(cam, E.FramebufferSize(size.w, size.h))
                                                && calls[j] == CamUpdate(cam)
  {
    var rest := AfterRefresh(mode, size, background, camera, renderer, planarRenderer, effect, hasUi);
    var calls := FrameCalls(mode, size, background, camera, renderer, planarRenderer, effect, hasUi);
    AfterRefreshTouchesNoCamera(mode, size, background, camera, renderer, planarRenderer, effect, hasUi, cam);
    RefreshTouchesEachCameraOnce(size, cam);
    CountAppend(RefreshCalls(size), rest, CamUpdate(cam));
    var i, j := if cam == TwoD then 0 else 1, if cam == TwoD then 2 else 3;
    assert calls[i] == CamHandle(cam, E.FramebufferSize(size.w, size.h)) && calls[j] == CamUpdate(cam);
  }

  /** A frame is the camera refresh followed by calls that hand no camera an
      event and update none. */
  lemma AfterRefreshTouchesNoCamera(mode: RenderMode, size: Size, background: Color, camera: Camera,
                                    renderer: Option<Renderer>, planarRenderer: Option<PlanarRenderer>,
                                    effect: Option<Effect>, hasUi: bool, cam: RenderMode)
    ensures var rest := AfterRefresh(mode, size, background, camera, renderer, planarRenderer, effect, hasUi);
            && FrameCalls(mode, size, background, camera, renderer, planarRenderer, effect, hasUi)
               == RefreshCalls(size) + rest
            && CameraEvents(rest, cam) == [] && Count(rest, CamUpdate(cam)) == 0
  {
    var rest := AfterRefresh(mode, size, background, camera, renderer, planarRenderer, effect, hasUi);
    AfterRefreshHandsNoCamera(mode, size, background, camera, renderer, planarRenderer, effect, hasUi, cam);
    AfterRefreshUpdatesNoCamera(mode, size, background, camera, renderer, planarRenderer, effect, hasUi, cam);
  }

  lemma AfterRefreshUpdatesNoCamera(mode: RenderMode, size: Size, background: Color, camera: Camera,
                                    renderer: Option<Renderer>, planarRenderer: Option<PlanarRenderer>,
                                    effect: Option<Effect>, hasUi: bool, cam: RenderMode)
    ensures Count(AfterRefresh(mode, size, background, camera, renderer, planarRenderer, effect, hasUi),
                  CamUpdate(cam)) == 0
  {
    var rest := AfterRefresh(mode, size, background, camera, renderer, planarRenderer, effect, hasUi);
    assert CamUpdate(cam) !in rest;
    CountAbsent(rest, CamUpdate(cam));
  }

  lemma AfterRefreshHandsNoCamera(mode: RenderMode, size: Size, background: Color, camera: Camera,
                                  renderer: Option<Renderer>, planarRenderer: Option<PlanarRenderer>,
                                  effect: Option<Effect>, hasUi: bool, cam: RenderMode)
    ensures CameraEvents(AfterRefresh(mode, size, background, camera, renderer, planarRenderer, effect, hasUi),
                         cam) == []
  {
    var a := [Select(SceneTarget(effect)), Clear(background)];
    var b := DrawCalls(mode, renderer, planarRenderer);
    var c := PostCalls(size, camera, effect);
    var d := OverlayCalls(size, hasUi);
    NoCameraCallsIn(a, cam);
    NoCameraCallsIn(b, cam);
    NoCameraCallsIn(c, cam);
    NoCameraCallsIn(d, cam);
    NoCameraCallsIn([Swap], cam);
    CameraEventsAppend(a, b, cam);
    CameraEventsAppend(a + b, c, cam);
    CameraEventsAppend(a + b + c, d, cam);
    CameraEventsAppend(a + b + c + d, [Swap], cam);
  }

  lemma RefreshTouchesEachCameraOnce(size: Size, cam: RenderMode)
    ensures CameraEvents(RefreshCalls(size), cam) == [E.FramebufferSize(size.w, size.h)]
    ensures Count(RefreshCalls(size), CamUpdate(cam)) == 1
  {
    var ev := E.FramebufferSize(size.w, size.h);
    var handles := [CamHandle(TwoD, ev), CamHandle(ThreeD, ev)];
    var updates := [CamUpdate(TwoD), CamUpdate(ThreeD)];
    assert RefreshCalls(size) == handles + updates;
    assert handles[1..][1..] == [] && updates[1..][1..] == [];
    CameraEventsAppend(handles, updates, cam);
    CountAppend(handles, updates, CamUpdate(cam));
  }

  lemma {:induction false} NoCameraCallsIn(calls: seq<Call>, cam: RenderMode)
    requires forall c :: c in calls ==> !c.CamHandle? && !c.CamUpdate?
    ensures CameraEvents(calls, cam) == [] && Count(calls, CamUpdate(cam)) == 0
  {
    if calls != [] {
      assert calls[0] in calls;
      assert forall c :: c in calls[1..] ==> c in calls;
      NoCameraCallsIn(calls[1..], cam);
    }
  }

  /** The scene target is selected right after the camera refresh, the
      offscreen target exactly when an effect is attached, and the clear with
      the configured background follows it, before anything is drawn. */
  lemma FrameSelectsThenClears(mode: RenderMode, size: Size, background: Color, camera: Camera,
                               renderer: Option<Renderer>, planarRenderer: Option<PlanarRenderer>,
                               effect: Option<Effect>, hasUi: bool)
    ensures var calls := FrameCalls(mode, size, background, camera, renderer, planarRenderer, effect, hasUi);
            && |calls| > DrawStart
            && (calls[4] == Select(Offscreen) <==> effect.Some?)
            && (calls[4] == Select(Screen) <==> effect.None?)
            && calls[5] == Clear(background)
            && forall i :: 0 <= i < DrawStart ==> !calls[i].Render3D? && !calls[i].Render2D?
  {
  }

  /** Exactly the renderer of the current mode draws, and only when
      supplied; the 3D renderer draws with pass 1. */
  lemma FrameDrawsCurrentModeOnly(mode: RenderMode, size: Size, background: Color, camera: Camera,
                                  renderer: Option<Renderer>, planarRenderer: Option<PlanarRenderer>,
                                  effect: Option<Effect>, hasUi: bool)
    ensures var calls := FrameCalls(mode, size, background, camera, renderer, planarRenderer, effect, hasUi);
            && (Render3D(1) in calls <==> mode == ThreeD && renderer.Some?)
            && (Render2D in calls <==> mode == TwoD && planarRenderer.Some?)
            && (forall c :: c in calls && c.Render3D? ==> c.pass == 1)
  {
    var calls := FrameCalls(mode, size, background, camera, renderer, planarRenderer, effect, hasUi);
    var pre := RefreshCalls(size) + [Select(SceneTarget(effect)), Clear(background)];
    var draw := DrawCalls(mode, renderer, planarRenderer);
    var post := PostCalls(size, camera, effect) + OverlayCalls(size, hasUi) + [Swap];
    assert calls == pre + draw + post;
  }

  /** At most one draw call per frame. */
  lemma FrameDrawsAtMostOnce(mode: RenderMode, size: Size, background: Color, camera: Camera,
                             renderer: Option<Renderer>, planarRenderer: Option<PlanarRenderer>,
                             effect: Option<Effect>, hasUi: bool)
    ensures var calls := FrameCalls(mode, size, background, camera, renderer, planarRenderer, effect, hasUi);
            Count(calls, Render3D(1)) + Count(calls, Render2D) <= 1
  {
    var calls := FrameCalls(mode, size, background, camera, renderer, planarRenderer, effect, hasUi);
    var pre := RefreshCalls(size) + [Select(SceneTarget(effect)), Clear(background)];
    var draw := DrawCalls(mode, renderer, planarRenderer);
    var post := PostCalls(size, camera, effect) + OverlayCalls(size, hasUi) + [Swap];
    assert calls == pre + draw + post;
    NoDrawCalls(pre);
    NoDrawCalls(post);
    CountAppend(pre + draw, post, Render3D(1));
    CountAppend(pre, draw, Render3D(1));
    CountAppend(pre + draw, post, Render2D);
    CountAppend(pre, draw, Render2D);
  }

  lemma NoDrawCalls(calls: seq<Call>)
    requires Render3D(1) !in calls && Render2D !in calls
    ensures Count(calls, Render3D(1)) == 0 && Count(calls, Render2D) == 0
  {
    CountAbsent(calls, Render3D(1));
    CountAbsent(calls, Render2D);
  }

  /** With an effect, after the draw the screen is selected, then the effect
      is updated with the fixed time step, the canvas size and the 3D camera's
      clip planes, then it draws from the offscreen target; without one, the
      effect is never called. */
  lemma FramePostProcesses(mode: RenderMode, size: Size, background: Color, camera: Camera,
                           renderer: Option<Renderer>, planarRenderer: Option<PlanarRenderer>,
                           effect: Option<Effect>, hasUi: bool)
    ensures var calls := FrameCalls(mode, size, background, camera, renderer, planarRenderer, effect, hasUi);
            var k := DrawStart + |DrawCalls(mode, renderer, planarRenderer)|;
            && (effect.Some? ==>
                  k + 2 < |calls| && calls[k] == Select(Screen)
                  && calls[k + 1] == PostUpdate(PostProcessDt, size, camera.znear, camera.zfar)
                  && calls[k + 2] == PostDraw(Offscreen))
            && (effect.None? ==> forall c :: c in calls ==> !c.PostUpdate? && !c.PostDraw?)
  {
  }

  /** The frame ends with the one buffer swap. */
  lemma FrameSwapsOnceLast(mode: RenderMode, size: Size, background: Color, camera: Camera,
                           renderer: Option<Renderer>, planarRenderer: Option<PlanarRenderer>,
                           effect: Option<Effect>, hasUi: bool)
    ensures var calls := FrameCalls(mode, size, background, camera, renderer, planarRenderer, effect, hasUi);
            calls != [] && calls[|calls| - 1] == Swap && Count(calls, Swap) == 1
  {
    var calls := FrameCalls(mode, size, background, camera, renderer, planarRenderer, effect, hasUi);
    var body := RefreshCalls(size) + [Select(SceneTarget(effect)), Clear(background)]
                + DrawCalls(mode, renderer, planarRenderer) + PostCalls(size, camera, effect)
                + OverlayCalls(size, hasUi);
    assert calls == body + [Swap];
    CountAbsent(body, Swap);
    CountAppend(body, [Swap], Swap);
  }

  /** The overlays come right before the swap, the text overlay first. */
  lemma FrameOverlaysBeforeSwap(mode: RenderMode, size: Size, background: Color, camera: Camera,
                                renderer: Option<Renderer>, planarRenderer: Option<PlanarRenderer>,
                                effect: Option<Effect>, hasUi: bool)
    ensures var calls := FrameCalls(mode, size, background, camera, renderer, planarRenderer, effect, hasUi);
            && |calls| >= 3
            && calls[|calls| - 2] == (if hasUi then RenderUi(size) else RenderText(size))
            && (hasUi ==> calls[|calls| - 3] == RenderText(size))
  {
  }

  lemma AppendAssoc<T>(a: seq<T>, b: seq<T>, c: seq<T>)
    ensures a + (b + c) == (a + b) + c
  {
  }
}
