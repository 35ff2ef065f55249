/** The window's collaborators, seen from the window: the cameras, renderers
    and post-processing effect an application supplies for a frame, and the
    calls the window makes into them, into the graphics context and into the
    platform canvas. Each such call is one entry of a ghost trace. */
module Collaborators {
  import opened Wrappers
  import opened RenderModes
  import E = Events
  import UI = ConrodInput

  /** A width and a height in pixels. */
  datatype Size = Size(w: nat, h: nat)

  /** A background colour; the components are stored and passed on, never
      computed with. */
  datatype Color = Color(r: real, g: real, b: real)

  /** The light: at a fixed position, or attached to the camera. */
  datatype Light = Absolute(x: real, y: real, z: real) | StickToCamera

  /** The render targets: the visible screen, or the window's own offscreen
      target that post-processing reads from. */
  datatype Target = Screen | Offscreen

  /** The 3D camera, observed only through the clip planes it reports. */
  datatype Camera = Camera(znear: real, zfar: real)
  datatype PlanarCamera = PlanarCamera
  datatype Renderer = Renderer
  datatype PlanarRenderer = PlanarRenderer
  datatype Effect = Effect

  /** What the application's state hands the window for one frame. */
  datatype Scene = Scene(
    camera: Option<Camera>,
    planarCamera: Option<PlanarCamera>,
    renderer: Option<Renderer>,
    planarRenderer: Option<PlanarRenderer>,
    effect: Option<Effect>)

  /** Whether the camera of a mode is supplied: the 3D camera for `ThreeD`,
      the planar camera for `TwoD`. */
  predicate HasCamera(scene: Scene, mode: RenderMode) {
    match mode
    case ThreeD => scene.camera.Some?
    case TwoD => scene.planarCamera.Some?
  }

  /** The time step the post-processing effect is given, fixed whatever the
      real frame time was. */
  const PostProcessDt: real := 0.016

  /** One call of the window into a collaborator. The cameras are named by
      their mode: `ThreeD` is the 3D camera, `TwoD` the planar camera. */
  datatype Call =
    | CamHandle(cam: RenderMode, ev: E.WindowEvent)
    | CamUpdate(updated: RenderMode)
    | UiInput(input: UI.Input)
    | Scissor(scissor: Size)
    | Select(target: Target)
    | Clear(color: Color)
    | Render3D(pass: nat)
    | Render2D
    | PostUpdate(dt: real, postSize: Size, znear: real, zfar: real)
    | PostDraw(source: Target)
    | RenderText(textSize: Size)
    | RenderUi(uiSize: Size)
    | Swap
    | PollEvents
    | ReadPixels(x: nat, y: nat, rect: Size)
    | StateStep

  /** The events a camera was handed, in order. */
  function CameraEvents(calls: seq<Call>, cam: RenderMode): seq<E.WindowEvent> {
    if calls == [] then []
    else (if calls[0].CamHandle? && calls[0].cam == cam then [calls[0].ev] else [])
         + CameraEvents(calls[1..], cam)
  }

  lemma {:induction false} CameraEventsAppend(a: seq<Call>, b: seq<Call>, cam: RenderMode)
    ensures CameraEvents(a + b, cam) == CameraEvents(a, cam) + CameraEvents(b, cam)
  {
    if a == [] {
      assert a + b == b;
    } else {
      assert (a + b)[1..] == a[1..] + b;
      CameraEventsAppend(a[1..], b, cam);
    }
  }

  /** How often a call occurs. */
  function Count(calls: seq<Call>, c: Call): nat {
    if calls == [] then 0
    else (if calls[0] == c then 1 else 0) + Count(calls[1..], c)
  }

  lemma {:induction false} CountAppend(a: seq<Call>, b: seq<Call>, c: Call)
    ensures Count(a + b, c) == Count(a, c) + Count(b, c)
  {
    if a == [] {
      assert a + b == b;
    } else {
      assert (a + b)[1..] == a[1..] + b;
      CountAppend(a[1..], b, c);
    }
  }

  /** A call that does not occur is counted zero times. */
  lemma {:induction false} CountAbsent(calls: seq<Call>, c: Call)
    ensures c !in calls <==> Count(calls, c) == 0
  {
    if calls != [] {
      CountAbsent(calls[1..], c);
      assert calls == [calls[0]] + calls[1..];
    }
  }
}
