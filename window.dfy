/** The window: the state the orchestration core keeps between frames, and
    the operations that change it. The cameras, renderers, post-processing
    effect, graphics context and platform canvas are collaborators; each call
    into them is appended to the ghost `trace`. */
module Window {
  import opened Wrappers
  import opened RenderModes
  import opened Pacing
  import opened Snapshot
  import opened Collaborators
  import opened Dispatch
  import opened Frame
  import E = Events
  import UI = ConrodInput

  /** The outcome of a call that can panic. */
  datatype Outcome = Done | Panic

  class CustomWindow {
    var shouldClose: bool
    var renderingMode: RenderMode
    /** The minimum frame duration, `None` for no limit. */
    var maxDurPerFrame: Option<Duration>
    var background: Color
    var lightMode: Light
    /** The size of the platform canvas, maintained by the platform. */
    var canvasSize: Size
    /** The screen viewport, `None` until a resize has set it. */
    var viewport: Option<Size>
    /** The size of the offscreen target that post-processing reads. */
    var offscreen: Size
    /** Events deferred from the previous frame, redelivered first. */
    var unhandled: seq<E.WindowEvent>
    /** The embedded UI's state, `None` in a build without it. */
    var ui: Option<UI.Ui>
    ghost var trace: seq<Call>

    /** The screen viewport, once set, agrees with the offscreen target. */
    ghost predicate Valid()
      reads this
    {
      ViewportAgrees(Dispatching())
    }

    /** The part of the state that event dispatch reads and writes. */
    ghost function Dispatching(): DispatchState
      reads this
    {
      DispatchState(shouldClose, viewport, offscreen, ui)
    }

    /** Opens a `width` by `height` window; `uiWindow` is the root widget of
        the embedded UI, in a build with it. */
    constructor (width: nat, height: nat, uiWindow: Option<UI.WidgetId>)
      ensures Valid()
      ensures !shouldClose && renderingMode == ThreeD && maxDurPerFrame == None
      ensures background == Color(0.0, 0.0, 0.0) && lightMode == Absolute(0.0, 10.0, 0.0)
      ensures canvasSize == Size(width, height) && viewport == None && offscreen == Size(width, height)
      ensures unhandled == [] && trace == []
      ensures ui == if uiWindow.Some? then Some(UI.Ui(uiWindow.value, None, None, 0)) else None
    {
      shouldClose := false;
      maxDurPerFrame := None;
      canvasSize := Size(width, height);
      unhandled := [];
      lightMode := Absolute(0.0, 10.0, 0.0);
      background := Color(0.0, 0.0, 0.0);
      ui := if uiWindow.Some? then Some(UI.Ui(uiWindow.value, None, None, 0)) else None;
      offscreen := Size(width, height);
      viewport := None;
      renderingMode := ThreeD;
      trace := [];
    }

    /** The canvas width, as the platform last reported it. */
    function Width(): (w: nat)
      reads this
      ensures w == canvasSize.w
    {
      canvasSize.w
    }

    /** The canvas height, as the platform last reported it. */
    function Height(): (h: nat)
      reads this
      ensures h == canvasSize.h
    {
      canvasSize.h
    }

    /** The canvas size: the width and the height together. */
    function CanvasSize(): (s: Size)
      reads this
      ensures s.w == Width() && s.h == Height()
    {
      Size(Width(), Height())
    }

    /** Reports the window as closed: never, whatever the close flag says. */
    function IsClosed(): (closed: bool)
      ensures !closed
    {
      false
    }

    /** Sets the frame-rate limit. A limit of zero panics and changes nothing;
        otherwise the stored duration is that of `FrameDuration`, or none. */
    method SetFramerateLimit(fps: Option<nat>) returns (outcome: Outcome)
      modifies this`maxDurPerFrame
      ensures outcome == Panic <==> fps == Some(0)
      ensures outcome == Panic ==> maxDurPerFrame == old(maxDurPerFrame)
      ensures fps == None ==> maxDurPerFrame == None
      ensures fps.Some? && fps.value != 0 ==> maxDurPerFrame == Some(FrameDuration(fps.value))
    {
      match fps
      case None =>
        maxDurPerFrame := None;
        outcome := Done;
      case Some(f) =>
        if f == 0 {
          outcome := Panic;
        } else {
          maxDurPerFrame := Some(FrameDuration(f));
          outcome := Done;
        }
    }

    /** Switches to the other rendering mode. */
    method SwitchRenderingMode()
      modifies this`renderingMode
      ensures renderingMode == Toggled(old(renderingMode))
    {
      match renderingMode
      case ThreeD => renderingMode := TwoD;
      case TwoD => renderingMode := ThreeD;
    }

    method Close()
      modifies this`shouldClose
      ensures shouldClose
    {
      shouldClose := true;
    }

    method SetBackgroundColor(r: real, g: real, b: real)
      modifies this`background
      ensures background == Color(r, g, b)
    {
      background := Color(r, g, b);
    }

    method SetLight(light: Light)
      modifies this`lightMode
      ensures lightMode == light
    {
      lightMode := light;
    }

    /** Captures a `width` by `height` rectangle at (`x`, `y`): the buffer is
        sized to three bytes per pixel, then the context reads the pixels into
        it; `pixels` are the bytes the context delivers. */
    method SnapRect(out: seq<byte>, x: nat, y: nat, width: nat, height: nat, pixels: seq<byte>)
      returns (res: seq<byte>)
      modifies this`trace
      ensures res == ReadInto(SizedBuffer(out, width, height), pixels)
      ensures |res| == width * height * 3
      ensures trace == old(trace) + [ReadPixels(x, y, Size(width, height))]
    {
      var size := width * height * 3;
      var sized := out;
      if |sized| < size {
        var diff := size - |sized|;
        sized := sized + Zeros(diff);
      } else {
        sized := sized[..size];
      }
      trace := trace + [ReadPixels(x, y, Size(width, height))];
      if |sized| <= |pixels| {
        res := pixels[..|sized|];
      } else {
        res := pixels + sized[|pixels|..];
      }
    }

    /** Captures the whole canvas. */
    method Snap(out: seq<byte>, pixels: seq<byte>) returns (res: seq<byte>)
      modifies this`trace
      ensures res == ReadInto(SizedBuffer(out, canvasSize.w, canvasSize.h), pixels)
      ensures |res| == canvasSize.w * canvasSize.h * 3
      ensures trace == old(trace) + [ReadPixels(0, 0, canvasSize)]
    {
      res := SnapRect(out, 0, 0, Width(), Height(), pixels);
    }

    /** Sets the scissor rectangle, the screen viewport and the offscreen
        target to a new size. */
    method UpdateViewport(w: nat, h: nat)
      modifies this`viewport, this`offscreen, this`trace
      ensures viewport == Some(Size(w, h)) && offscreen == Size(w, h)
      ensures trace == old(trace) + [Scissor(Size(w, h))]
    {
      trace := trace + [Scissor(Size(w, h))];
      viewport := Some(Size(w, h));
      offscreen := Size(w, h);
    }

    /** The window's own interception of an event: a close request or an
        Escape release closes the window, a resize updates the viewport. */
    method InterceptEvent(ev: E.WindowEvent)
      modifies this`shouldClose, this`viewport, this`offscreen, this`trace
      ensures var i := Intercept(old(Dispatching()), ev);
              Dispatching() == i.st && trace == old(trace) + i.calls
    {
      if E.Closes(ev) {
        Close();
      } else if ev.FramebufferSize? {
        UpdateViewport(ev.w, ev.h);
      }
    }

    /** Feeds the event's UI input, if it has one, to the embedded UI. */
    method FeedUiEvent(react: UI.Reaction, ev: E.WindowEvent)
      modifies this`ui, this`trace
      ensures var f := FeedUi(old(Dispatching()), react, ev);
              Dispatching() == f.st && trace == old(trace) + f.calls
    {
      if ui.Some? {
        var input := UI.ToConrodInput(ev);
        if input.Some? {
          ui := Some(react(ui.value, input.value));
          trace := trace + [UiInput(input.value)];
        }
      }
    }

    /** Hands the event to the camera of the current mode, if supplied. */
    method ForwardEvent(scene: Scene, ev: E.WindowEvent)
      modifies this`trace
      ensures trace == old(trace) + Forward(renderingMode, scene, ev)
    {
      match renderingMode {
        case ThreeD =>
          if scene.camera.Some? {
            trace := trace + [CamHandle(ThreeD, ev)];
          }
        case TwoD =>
          if scene.planarCamera.Some? {
            trace := trace + [CamHandle(TwoD, ev)];
          }
      }
    }

    /** Handles one event: interception, then the UI if built in, which may
        withhold the event, then the camera of the current mode. */
    method HandleEvent(scene: Scene, react: UI.Reaction, ev: E.WindowEvent)
      modifies this`shouldClose, this`viewport, this`offscreen, this`ui, this`trace
      ensures var d := DispatchEvent(old(Dispatching()), renderingMode, scene, react, ev);
              Dispatching() == d.st && trace == old(trace) + d.calls
    {
      ghost var t0 := trace;
      ghost var i := Intercept(Dispatching(), ev);
      InterceptEvent(ev);
      ghost var f := FeedUi(i.st, react, ev);
      FeedUiEvent(react, ev);
      AppendAssoc(t0, i.calls, f.calls);
      if ui.Some? && UI.Swallows(ui.value, ev) {
        return;
      }
      ForwardEvent(scene, ev);
      AppendAssoc(t0, i.calls + f.calls, Forward(renderingMode, scene, ev));
    }

    /** Handles a batch of events one after the other. */
    method HandleBatch(evs: seq<E.WindowEvent>, scene: Scene, react: UI.Reaction)
      modifies this`shouldClose, this`viewport, this`offscreen, this`ui, this`trace
      ensures var d := DispatchAll(old(Dispatching()), renderingMode, scene, react, evs);
              Dispatching() == d.st && trace == old(trace) + d.calls
    {
      ghost var st0 := Dispatching();
      ghost var trace0 := trace;
      var i := 0;
      assert evs[..0] == [];
      while i < |evs|
        invariant 0 <= i <= |evs|
        invariant Dispatching() == DispatchAll(st0, renderingMode, scene, react, evs[..i]).st
        invariant trace == trace0 + DispatchAll(st0, renderingMode, scene, react, evs[..i]).calls
      {
        ghost var done := DispatchAll(st0, renderingMode, scene, react, evs[..i]);
        HandleEvent(scene, react, evs[i]);
        DispatchPrefixStep(st0, renderingMode, scene, react, evs, i);
        AppendAssoc(trace0, done.calls, DispatchEvent(done.st, renderingMode, scene, react, evs[i]).calls);
        i := i + 1;
      }
      assert evs[..i] == evs;
    }

    /** Handles the deferred events, then the incoming ones, in order, clears
        the deferred buffer and polls the platform, after which the canvas has
        the size `reported` that the platform reports. */
    method HandleEvents(incoming: seq<E.WindowEvent>, scene: Scene, react: UI.Reaction, reported: Size)
      requires Valid()
      modifies this`shouldClose, this`viewport, this`offscreen, this`ui, this`trace, this`unhandled,
               this`canvasSize
      ensures Valid()
      ensures var d := DispatchAll(old(Dispatching()), renderingMode, scene, react, old(unhandled) + incoming);
              Dispatching() == d.st && trace == old(trace) + d.calls + [PollEvents]
      ensures unhandled == [] && canvasSize == reported
    {
      var pending := unhandled + incoming;
      ghost var st0 := Dispatching();
      HandleBatch(pending, scene, react);
      BatchKeepsViewportAgreement(st0, renderingMode, scene, react, pending);
      unhandled := [];
      trace := trace + [PollEvents];
      canvasSize := reported;
    }

    /** Clears color and depth to the background colour. */
    method ClearScreen()
      modifies this`trace
      ensures trace == old(trace) + [Clear(background)]
    {
      trace := trace + [Clear(background)];
    }

    /** Tells both cameras the canvas size, then lets both update. */
    method RefreshCameras(size: Size)
      modifies this`trace
      ensures trace == old(trace) + RefreshCalls(size)
    {
      var resize := E.FramebufferSize(size.w, size.h);
      trace := trace + [CamHandle(TwoD, resize), CamHandle(ThreeD, resize)];
      trace := trace + [CamUpdate(TwoD), CamUpdate(ThreeD)];
    }

    /** Draws the scene with the renderer of the current mode, if supplied. */
    method DrawScene(renderer: Option<Renderer>, planarRenderer: Option<PlanarRenderer>)
      modifies this`trace
      ensures trace == old(trace) + DrawCalls(renderingMode, renderer, planarRenderer)
    {
      match renderingMode {
        case ThreeD =>
          if renderer.Some? {
            trace := trace + [Render3D(1)];
          }
        case TwoD =>
          if planarRenderer.Some? {
            trace := trace + [Render2D];
          }
      }
    }

    /** With an effect, draws the offscreen target onto the screen through it. */
    method PostProcess(size: Size, camera: Camera, effect: Option<Effect>)
      modifies this`trace
      ensures trace == old(trace) + PostCalls(size, camera, effect)
    {
      var znear, zfar := camera.znear, camera.zfar;
      if effect.Some? {
        trace := trace + [Select(Screen)];
        trace := trace + [PostUpdate(PostProcessDt, size, znear, zfar)];
        trace := trace + [PostDraw(Offscreen)];
      }
    }

    /** Draws the text, then the UI if built in. */
    method DrawOverlays(size: Size)
      modifies this`trace
      ensures trace == old(trace) + OverlayCalls(size, ui.Some?)
    {
      trace := trace + [RenderText(size)];
      if ui.Some? {
        trace := trace + [RenderUi(size)];
      }
    }

    /** Draws the frame after the camera refresh: selects the scene target,
        clears it, draws, post-processes, draws the overlays and swaps. */
    method RenderScene(size: Size, camera: Camera, renderer: Option<Renderer>,
                       planarRenderer: Option<PlanarRenderer>, effect: Option<Effect>)
      modifies this`trace
      ensures trace == old(trace) + AfterRefresh(renderingMode, size, background, camera, renderer,
                                                 planarRenderer, effect, ui.Some?)
    {
      ghost var t0 := trace;
      if effect.Some? {
        trace := trace + [Select(Offscreen)];
      } else {
        trace := trace + [Select(Screen)];
      }
      ClearScreen();
      ghost var t1 := trace;
      DrawScene(renderer, planarRenderer);
      ghost var t2 := trace;
      PostProcess(size, camera, effect);
      ghost var t3 := trace;
      DrawOverlays(size);
      ghost var t4 := trace;
      trace := trace + [Swap];
      ghost var f1 := [Select(SceneTarget(effect)), Clear(background)];
      ghost var f2 := f1 + DrawCalls(renderingMode, renderer, planarRenderer);
      ghost var f3 := f2 + PostCalls(size, camera, effect);
      ghost var f4 := f3 + OverlayCalls(size, ui.Some?);
      assert t1 == t0 + f1;
      AppendAssoc(t0, f1, DrawCalls(renderingMode, renderer, planarRenderer));
      AppendAssoc(t0, f2, PostCalls(size, camera, effect));
      AppendAssoc(t0, f3, OverlayCalls(size, ui.Some?));
      AppendAssoc(t0, f4, [Swap]);
    }

    /** Renders one frame with both cameras; returns whether the window stays
        open and how long the pacer sleeps after a frame that took `elapsed`
        nanoseconds. */
    method RenderSingleFrame(camera: Camera, planarCamera: PlanarCamera, renderer: Option<Renderer>,
                             planarRenderer: Option<PlanarRenderer>, effect: Option<Effect>, elapsed: nat)
      returns (continues: bool, sleep: nat)
      modifies this`lightMode, this`trace
      ensures lightMode == old(lightMode)
      ensures trace == old(trace) + FrameCalls(renderingMode, canvasSize, background, camera, renderer,
                                               planarRenderer, effect, ui.Some?)
      ensures continues == !shouldClose
      ensures sleep == SleepAmount(maxDurPerFrame, elapsed)
    {
      var w, h := Width(), Height();
      var size := Size(w, h);
      RefreshCameras(size);
      if lightMode == StickToCamera {
        SetLight(StickToCamera);
      }
      RenderScene(size, camera, renderer, planarRenderer, effect);
      AppendAssoc(old(trace), RefreshCalls(size),
                  AfterRefresh(renderingMode, size, background, camera, renderer, planarRenderer, effect, ui.Some?));
      sleep := SleepFor(elapsed);
      continues := !shouldClose;
    }

    /** How long the pacer sleeps after a frame that took `elapsed`. */
    method SleepFor(elapsed: nat) returns (sleep: nat)
      ensures sleep == SleepAmount(maxDurPerFrame, elapsed)
    {
      sleep := 0;
      match maxDurPerFrame {
        case Some(dur) =>
          if elapsed < dur.nanos {
            sleep := dur.nanos - elapsed;
          }
        case None =>
      }
    }

    /** Handles the events, then renders a frame, which panics unless both
        cameras are supplied. */
    method DoRenderWith(incoming: seq<E.WindowEvent>, scene: Scene, react: UI.Reaction, reported: Size,
                          elapsed: nat)
      returns (r: FrameResult)
      requires Valid()
      modifies this`shouldClose, this`viewport, this`offscreen, this`ui, this`trace, this`unhandled,
               this`lightMode, this`canvasSize
      ensures Valid() && unhandled == [] && lightMode == old(lightMode) && canvasSize == reported
      ensures var d := DispatchAll(old(Dispatching()), renderingMode, scene, react, old(unhandled) + incoming);
              && Dispatching() == d.st
              && (r.Panicked? <==> scene.camera.None? || scene.planarCamera.None?)
              && (r.Panicked? ==> trace == old(trace) + d.calls + [PollEvents])
              && (r.Presented? ==>
                    r.continues == !d.st.shouldClose
                    && r.sleep == SleepAmount(maxDurPerFrame, elapsed)
                    && trace == old(trace) + d.calls + [PollEvents]
                                + FrameCalls(renderingMode, reported, background, scene.camera.value,
                                             scene.renderer, scene.planarRenderer, scene.effect, d.st.ui.Some?))
    {
      HandleEvents(incoming, scene, react, reported);
      if scene.camera.Some? && scene.planarCamera.Some? {
        var continues, sleep := RenderSingleFrame(scene.camera.value, scene.planarCamera.value, scene.renderer,
                                                  scene.planarRenderer, scene.effect, elapsed);
        r := Presented(continues, sleep);
      } else {
        r := Panicked;
      }
    }

    /** One frame step of the render loop: renders with the scene the
        application's state supplies, stores the close flag, lets the state
        step when the window stays open, and tells the caller whether to go on.
        `stepCloses` says whether the application's step closes the window. */
    method DoRenderWithState(incoming: seq<E.WindowEvent>, scene: Scene, react: UI.Reaction, reported: Size,
                               elapsed: nat, stepCloses: bool)
      returns (r: FrameResult)
      requires Valid()
      modifies this`shouldClose, this`viewport, this`offscreen, this`ui, this`trace, this`unhandled,
               this`lightMode, this`canvasSize
      ensures Valid() && unhandled == [] && lightMode == old(lightMode) && canvasSize == reported
      ensures var d := DispatchAll(old(Dispatching()), renderingMode, scene, react, old(unhandled) + incoming);
              && viewport == d.st.viewport && offscreen == d.st.offscreen && ui == d.st.ui
              && (r.Panicked? <==> scene.camera.None? || scene.planarCamera.None?)
              && (r.Panicked? ==> shouldClose == d.st.shouldClose && trace == old(trace) + d.calls + [PollEvents])
              && (r.Presented? ==>
                    (shouldClose <==> d.st.shouldClose || stepCloses)
                    && r.continues == !shouldClose
                    && r.sleep == SleepAmount(maxDurPerFrame, elapsed)
                    && trace == old(trace) + d.calls + [PollEvents]
                                + FrameCalls(renderingMode, reported, background, scene.camera.value,
                                             scene.renderer, scene.planarRenderer, scene.effect, d.st.ui.Some?)
                                + (if d.st.shouldClose then [] else [StateStep]))
    {
      var frame := DoRenderWith(incoming, scene, react, reported, elapsed);
      match frame
      case Panicked =>
        r := Panicked;
      case Presented(continues, sleep) =>
        shouldClose := !continues;
        if !shouldClose {
          trace := trace + [StateStep];
          if stepCloses {
            Close();
          }
        }
        r := Presented(!shouldClose, sleep);
    }
  }
}
