# kiss3d `CustomWindow`: per-frame orchestration

This project models the orchestration core of kiss3d's window: the
`CustomWindow` type in `src/window/windows_custom.rs`. On each frame step the window:

1. handles the events deferred from the previous frame, then the fresh ones;
2. intercepts close requests and resizes;
3. optionally feeds the embedded conrod UI, which may withhold an event;
4. forwards each remaining event to the camera of the current rendering mode;
5. refreshes both cameras;
6. selects a render target and clears it;
7. invokes the renderer of the current mode;
8. runs the post-processing effect, if one is attached;
9. draws the overlays and swaps the buffers;
10. computes how long the frame pacer sleeps.

The cameras, renderers, post-processing effect, graphics context and
platform canvas are collaborators. Each call that draws, selects a
target, clears, sets the scissor, hands a camera or the UI an input,
updates a camera or the effect, reads pixels, swaps, polls or steps the
application's state is appended to a ghost trace. Queries that
only read a collaborator are not traced. The contracts speak about that
trace and about the window's fields.

Modules:

- `Events`: the window events the core distinguishes, and the key set.
- `ConrodInput`: the conrod build feature. It holds the translation of
  window events into UI input, and the UI's capture state.
- `RenderModes`: the rendering mode and its toggle.
- `Pacing`: the frame-rate limit and the sleep amount.
- `Snapshot`: the sizing rule for the screen-capture buffer, and the pixel read into it.
- `Collaborators`: sizes, lights, the scene the application supplies
  for a frame, and the `Call` entries of the trace.
- `Dispatch`: pure specification of handling one event and a batch of
  events.
- `Frame`: pure specification of the calls one frame makes.
- `Window`: the class `CustomWindow`, whose methods change its fields in
  place. Each method is proved against `Dispatch`, `Frame`, `Pacing`
  and `Snapshot`.

Where the code departs from the documented intent, the model follows the code:

- A close request or an Escape release sets the close flag, but handling
  does not stop there. An Escape release is still fed to the UI (a close
  request has no UI input). Both still go to the current mode's camera
  when it is supplied, and an Escape release only when the UI does not
  hold the keyboard.
- A frame panics unless both cameras are supplied.
- The frame in which the close flag becomes set is still drawn and
  presented. The step then reports that the loop should stop.
- `is_closed` always answers false.
- The post-processing time step is the constant 0.016.

## Model

| member | source | states |
|---|---|---|
| Window.CustomWindow.constructor | src/window/windows_custom.rs:292-335 | a new window is open, in 3D mode, unthrottled, with a black background and the light at (0, 10, 0); the offscreen target has the requested size; the deferred buffer is empty; the UI has no capture; the viewport invariant holds |
| Window.CustomWindow.Width | src/window/windows_custom.rs:95-97 | the width of the canvas as the platform last reported it |
| Window.CustomWindow.Height | src/window/windows_custom.rs:101-103 | the height of the canvas as the platform last reported it |
| Window.CustomWindow.CanvasSize | src/window/windows_custom.rs:107-110 | the size pairs the width and the height |
| Window.CustomWindow.IsClosed | src/window/windows_custom.rs:204-207 | the window is never reported closed |
| Window.CustomWindow.SetFramerateLimit | src/window/windows_custom.rs:112-119 | a limit of zero panics and changes nothing; `None` removes the limit; any other limit stores `FrameDuration` of it |
| Pacing.FrameDuration | src/window/windows_custom.rs:115-118 | the stored duration is a whole number of milliseconds, at most 1/fps s, and less than 1 ms short of it |
| Pacing.HighRateIsUnthrottled | src/window/windows_custom.rs:117 | above 1000 fps the integer division yields a zero duration, so no frame is ever delayed |
| Window.CustomWindow.SwitchRenderingMode | src/window/windows_custom.rs:121-128 | the mode becomes the other mode, and no other field changes |
| RenderModes.Toggled | src/window/windows_custom.rs:124-127 | the toggle always yields the other mode |
| RenderModes.ToggleInvolutive | src/window/windows_custom.rs:123-128 | toggling twice restores the mode |
| Window.CustomWindow.Close | src/window/windows_custom.rs:160-164 | the close flag is set |
| Window.CustomWindow.SetBackgroundColor | src/window/windows_custom.rs:178-184 | the background becomes the given colour |
| Window.CustomWindow.SetLight | src/window/windows_custom.rs:214-217 | the light mode becomes the given light |
| Window.CustomWindow.SnapRect | src/window/windows_custom.rs:352-373 | the buffer is sized by `SizedBuffer`, then exactly one pixel read of the rectangle writes the delivered bytes into it (`ReadInto`); the result holds three bytes per pixel |
| Window.CustomWindow.Snap | src/window/windows_custom.rs:342-345 | captures the whole canvas from the origin, as `SnapRect` does |
| Snapshot.ReadInto | src/window/windows_custom.rs:365-372 | the read keeps the buffer's length; each byte it reaches holds the delivered byte, and each byte it does not reach keeps its value |
| Snapshot.FullReadReplacesBuffer | src/window/windows_custom.rs:352-372 | a read that delivers every pixel of the rectangle leaves exactly those pixels, whatever the buffer held before |
| Snapshot.SizedBuffer | src/window/windows_custom.rs:352-360 | the buffer holds exactly three bytes per pixel; a shorter buffer keeps its contents and is padded with zeros; a longer one is cut to its prefix |
| Snapshot.SizingIdempotent | src/window/windows_custom.rs:352-360 | sizing an already sized buffer changes nothing |
| Window.CustomWindow.UpdateViewport | src/window/windows_custom.rs:805-810 | the scissor is set, and the screen viewport and offscreen target both take the new size |
| Window.CustomWindow.InterceptEvent | src/window/windows_custom.rs:429-437 | the state and the calls are those of `Intercept` |
| Dispatch.InterceptFacts | src/window/windows_custom.rs:429-437 | the close flag is set exactly by the closing events; both sizes are set exactly on a resize; the UI is untouched; no camera is called |
| Window.CustomWindow.FeedUiEvent | src/window/windows_custom.rs:614-620 | the state and the calls are those of `FeedUi` |
| Dispatch.FeedUiFacts | src/window/windows_custom.rs:614-620 | feeding the UI changes neither the close flag nor the sizes; a build without the UI stays without it; no camera is called |
| Window.CustomWindow.ForwardEvent | src/window/windows_custom.rs:640-650 | the event goes to the camera of the current mode, if supplied |
| Window.CustomWindow.HandleEvent | src/window/windows_custom.rs:423-651 | the state and the calls are those of `DispatchEvent` |
| Dispatch.DispatchEventFacts | src/window/windows_custom.rs:423-651 | per event: the close flag is set exactly by closing events and never cleared; sizes follow resizes; the other mode's camera sees nothing; the current camera sees the event exactly when it is supplied and the UI does not withhold it, closing events included |
| Window.CustomWindow.HandleBatch | src/window/windows_custom.rs:411-417 | the loop leaves the state and calls of `DispatchAll`, handling the events one by one in order |
| Window.CustomWindow.HandleEvents | src/window/windows_custom.rs:403-421 | deferred events are handled before the incoming ones as one ordered batch; the deferred buffer is then empty; events are then polled, after which the canvas has the size the platform reports; the viewport invariant is kept |
| Dispatch.DispatchAllAppend | src/window/windows_custom.rs:411-417 | handling `a + b` is handling `a`, then `b` from the state `a` left, with all of `a`'s calls first |
| Dispatch.DispatchAllSingle | src/window/windows_custom.rs:411-413 | a batch of one event is that event's handling |
| Dispatch.DispatchPrefixStep | src/window/windows_custom.rs:411-417 | extending a handled prefix by one event is handling that event from the prefix's state |
| Dispatch.AnyClosesExists | src/window/windows_custom.rs:429-432 | the recursive "some event closes" agrees with its existential form, both ways |
| Dispatch.CloseFlagAfterBatchRec | src/window/windows_custom.rs:429-432 | after a batch the close flag is set iff it was set before or some event of the batch closes |
| Dispatch.CloseFlagAfterBatch | src/window/windows_custom.rs:429-432 | after a batch the close flag is set iff it was set before or some index of the batch holds a closing event |
| Dispatch.SizesAfterBatch | src/window/windows_custom.rs:433-435 | after a batch both sizes equal the batch's last resize; without a resize both are unchanged |
| Dispatch.BatchKeepsViewportAgreement | src/window/windows_custom.rs:805-810 | dispatch keeps the screen viewport, once set, equal to the offscreen target |
| Dispatch.OtherCameraSeesNothing | src/window/windows_custom.rs:640-650 | the camera of the other mode is handed no event of a batch |
| Dispatch.CameraSeesWholeBatch | src/window/windows_custom.rs:640-650 | without the UI, a supplied camera of the current mode is handed exactly the batch, in order, closing events and resizes included; a missing one is handed nothing |
| Dispatch.CameraSeesSelection | src/window/windows_custom.rs:622-650 | with the UI, the current camera is handed an order-preserving selection of the batch, each event at most once; nothing if it is missing |
| ConrodInput.ToConrodInput | src/window/windows_custom.rs:455-611 | a close request has no UI input and every other event has one; keys and mouse buttons become presses or releases of the translated button, keeping their action; a resize becomes a UI resize; a cursor motion becomes a mouse-cursor motion; the scroll's vertical offset is negated; focus is kept |
| ConrodInput.ToConrodKey | src/window/windows_custom.rs:482-603 | digits, letters, F1 to F24 and keypad digits keep their value; each named key maps through the table; exactly the unlisted keys become `Unknown` |
| ConrodInput.NamedKeyTableBijective | src/window/windows_custom.rs:520-601 | the named-key table and its reverse undo each other, both ways |
| ConrodInput.KeyTableInjective | src/window/windows_custom.rs:483-603 | two keys the table lists (any key but an `Unlisted` one), named keys included, translate alike only if they are equal |
| ConrodInput.MouseButtonTableBijective | src/window/windows_custom.rs:465-475 | the mouse-button table is inverted by its reverse table, both ways |
| ConrodInput.KeyboardCaptureWithholdsAll | src/window/windows_custom.rs:255-263 | some widget other than the root window holds the keyboard exactly when the UI withholds every keyboard event |
| ConrodInput.MouseCaptureWithholdsAll | src/window/windows_custom.rs:245-253 | some widget other than the root window holds the mouse exactly when the UI withholds every mouse event |
| ConrodInput.SwallowsOnlyInputEvents | src/window/windows_custom.rs:622-637 | resize, focus and close events are never withheld; nothing is withheld while only the root window captures |
| Window.CustomWindow.ClearScreen | src/window/windows_custom.rs:795-803 | one clear with the background colour |
| Window.CustomWindow.RefreshCameras | src/window/windows_custom.rs:715-718 | both cameras are told the size, then both update, the planar camera first each time |
| Window.CustomWindow.DrawScene | src/window/windows_custom.rs:736-749 | only the renderer of the current mode draws, if supplied; the 3D renderer draws pass 1 |
| Window.CustomWindow.PostProcess | src/window/windows_custom.rs:751-761 | with an effect: the screen is selected; the effect is updated with 0.016, the size and the clip planes; it draws from the offscreen target |
| Window.CustomWindow.DrawOverlays | src/window/windows_custom.rs:763-771 | the text overlay, then the UI overlay in a build with the UI |
| Window.CustomWindow.RenderScene | src/window/windows_custom.rs:725-774 | the calls after the camera refresh are those of `AfterRefresh` |
| Window.CustomWindow.RenderSingleFrame | src/window/windows_custom.rs:704-793 | the frame's calls are those of `FrameCalls` for the canvas size; the light is unchanged; the result is the negated close flag; the sleep is `SleepAmount` |
| Window.CustomWindow.SleepFor | src/window/windows_custom.rs:776-787 | the sleep is `SleepAmount` of the stored limit |
| Pacing.SleepAmount | src/window/windows_custom.rs:779-784 | no limit means no sleep; the frame plus the sleep lasts at least the duration; a positive sleep tops the frame up to exactly the duration |
| Pacing.InstantFrameWaitsWholeDuration | src/window/windows_custom.rs:779-784 | an instantaneous frame waits the whole 1000/fps ms |
| Frame.RefreshTouchesEachCameraOnce | src/window/windows_custom.rs:715-718 | the refresh hands each camera only the size, and updates each camera once |
| Frame.AfterRefreshHandsNoCamera | src/window/windows_custom.rs:720-774 | after the refresh no camera is handed an event |
| Frame.AfterRefreshUpdatesNoCamera | src/window/windows_custom.rs:720-774 | after the refresh no camera is updated |
| Frame.AfterRefreshTouchesNoCamera | src/window/windows_custom.rs:712-774 | a frame splits into the refresh and calls that hand no camera an event and update none |
| Frame.FrameTellsEachCameraTheSize | src/window/windows_custom.rs:715-716 | in either mode, each camera is handed the canvas size exactly once in a frame, and nothing else |
| Frame.FrameUpdatesEachCameraOnce | src/window/windows_custom.rs:715-718 | in either mode, each camera is updated exactly once, after being handed the size |
| Frame.FrameSelectsThenClears | src/window/windows_custom.rs:725-734 | the offscreen target is selected iff an effect is attached, else the screen; then comes the clear with the background, before any draw |
| Frame.FrameDrawsCurrentModeOnly | src/window/windows_custom.rs:736-749 | the 3D renderer draws iff the mode is 3D and it is supplied; likewise the planar renderer for 2D; the 3D pass is always 1 |
| Frame.FrameDrawsAtMostOnce | src/window/windows_custom.rs:736-749 | a frame has at most one draw call |
| Frame.FramePostProcesses | src/window/windows_custom.rs:753-761 | with an effect, right after the draw: the screen is selected; the effect is updated with the fixed step, size and clip planes; it draws from the offscreen target; without an effect it is never called |
| Frame.FrameOverlaysBeforeSwap | src/window/windows_custom.rs:763-774 | the overlays come right before the swap, the text first |
| Frame.FrameSwapsOnceLast | src/window/windows_custom.rs:773-774 | the frame ends with its one buffer swap |
| Window.CustomWindow.DoRenderWith | src/window/windows_custom.rs:679-702 | events are handled first; it panics iff a camera is missing, with only the event calls traced; otherwise it presents the frame's calls for the canvas size reported at the poll, and returns the negated close flag left by dispatch, and the sleep |
| Window.CustomWindow.DoRenderWithState | src/window/windows_custom.rs:664-677 | as `DoRenderWith`; the result is stored in the close flag; the application's state steps exactly when the window stays open; the window is then closed exactly when dispatch or the step closed it, and the result says whether to go on |

## Left out

- Floating-point arithmetic:
  - the hidpi factor;
  - the cursor-coordinate transform into UI coordinates;
  - the resize scaling into UI coordinates;
  - the `f32` conversion of the viewport size.

  Cursor and resize inputs carry no coordinates. Colours, light positions and clip planes are opaque reals.
- The conrod UI's own reaction to an input. That code is not part of this model, so the reaction is a parameter. The root widget id is a constructor argument.
- The platform canvas, which is I/O:
  - opening, hiding, showing;
  - title, icon and cursor grab;
  - `get_key`, `cursor_pos`, `hidpi_factor`;
  - `swap_buffers` and `poll_events`.

  The swap and the poll are trace entries. The canvas size, which the platform maintains, is taken as reported by the platform once per frame, at the poll; a change between the poll and the frame's drawing is not modelled.
- The `mpsc` channel and the shared `Rc<RefCell<…>>` deferred buffer. The fresh events are an input sequence and the deferred buffer is a field.
- Filling the deferred buffer, which the event manager does. That code is not part of this model.
- Wall-clock time: `Instant` and `thread::sleep`. The frame's elapsed time is an input, the sleep amount is an output, and the timer reset is not modelled.
- Some GPU context calls, which are foreign calls, are not modelled:
  - `init_gl`;
  - the active-texture and depth-clear details of `clear_screen`;
  - the pack alignment of the pixel read.
- `TextureManager`, `add_texture`, `conrod_texture_id` and `draw_text`, because their code is not part of this model. The text and UI renderers are trace entries.
- `snap_image`, whose image construction and flip lie in the `image` crate.
- The application's `step` callback. It is a trace entry. Whether it closes the window is an input, `stepCloses`; any other change it makes to the window is not modelled.
- The queries `camera.clip_planes()`, `canvas.size()` and `hidpi_factor()` are not traced. The clip planes are read from the 3D camera's fields and the size is the canvas size reported at the poll.
- Framebuffer selection is recorded as the selected target. The framebuffer manager's internal state is not modelled.
- Window.CustomWindow.SnapRect: does not model overflow of the `usize` product `width * height * 3`, nor the `i32` casts of the rectangle, because sizes are unbounded naturals.
- Events.Key: the platform's key set is not part of this model. Keys the UI translation does not name are `Unlisted`, with a code. This includes any function key beyond F24. The named keys are grouped (editing, cursor, punctuation, operator, modifier, keypad, system, clipboard keys) on both sides of the table; the groups are not part of the source.
- Events.WindowEvent: the event type is not part of this model. It is cut down to the seven kinds the window distinguishes; other kinds the platform may report are not modelled.
- Events.IsKeyboardEvent: the event type's own `is_keyboard_event` is not part of this model; it is taken to hold exactly for key events. `SwallowsOnlyInputEvents` rests on this choice.
- Events.IsMouseEvent: likewise, `is_mouse_event` is taken to hold exactly for mouse-button, cursor and scroll events. `SwallowsOnlyInputEvents` rests on this choice.
- The opening variants `new`, `new_hidden` and `new_with_size` are not modelled separately: they open the window through the one constructor, `new` and `new_hidden` at 800 by 600. Hiding is canvas I/O.
- Frame pacing is compiled only outside the wasm32 target; the model always paces, as the native build does.
- Dispatch.CameraSeesSelection: the selection is shown to exist. Which events it keeps is stated per event by `DispatchEventFacts`.
