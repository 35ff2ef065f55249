/** Event dispatch: what handling one window event, and a batch of them,
    does to the part of the window's state that dispatch changes (the close
    flag, the screen viewport, the offscreen target's size, the UI state) and
    which calls it makes into the collaborators. */
module Dispatch {
  import opened Wrappers
  import opened RenderModes
  import opened Collaborators
  import E = Events
  import UI = ConrodInput

  /** The window state that event dispatch reads and writes. `viewport` is
      `None` while no resize has set the screen viewport yet. `ui` is `None`
      in a build without the embedded UI. */
  datatype DispatchState = DispatchState(
    shouldClose: bool,
    viewport: Option<Size>,
    offscreen: Size,
    ui: Option<UI.Ui>)

  datatype Dispatched = Dispatched(st: DispatchState, calls: seq<Call>)

  /** The screen viewport agrees with the offscreen target as soon as it has
      been set at all. */
  predicate ViewportAgrees(st: DispatchState) {
    st.viewport.None? || st.viewport == Some(st.offscreen)
  }

  /** Step 1: the window's own interception. A close request or an Escape
      release sets the close flag; a resize sets the scissor rectangle, the
      screen viewport and the offscreen target to the new size. */
  function Intercept(st: DispatchState, ev: E.WindowEvent): Dispatched {
    if E.Closes(ev) then
      Dispatched(st.(shouldClose := true), [])
    else if ev.FramebufferSize? then
      var s := Size(ev.w, ev.h);
      Dispatched(st.(viewport := Some(s), offscreen := s), [Scissor(s)])
    else
      Dispatched(st, [])
  }

  /** Step 2, with the embedded UI only: the event's UI input, if it has one,
      is fed to the UI, whose state then responds as `react` says. */
  function FeedUi(st: DispatchState, react: UI.Reaction, ev: E.WindowEvent): Dispatched {
    match st.ui
    case None => Dispatched(st, [])
    case Some(u) =>
      match UI.ToConrodInput(ev)
      case None => Dispatched(st, [])
      case Some(input) => Dispatched(st.(ui := Some(react(u, input))), [UiInput(input)])
  }

  /** The UI, as it stands after being fed the event, withholds the event
      from the scene. */
  predicate Withheld(st: DispatchState, ev: E.WindowEvent) {
    st.ui.Some? && UI.Swallows(st.ui.value, ev)
  }

  /** Step 3: the event goes to the camera of the current mode, and is dropped
      when that camera is not supplied. */
  function Forward(mode: RenderMode, scene: Scene, ev: E.WindowEvent): seq<Call> {
    if HasCamera(scene, mode) then [CamHandle(mode, ev)] else []
  }

  /** Handling one event: interception, then the UI, then forwarding. */
  function DispatchEvent(st: DispatchState, mode: RenderMode, scene: Scene, react: UI.Reaction,
                         ev: E.WindowEvent): Dispatched
  {
    var i := Intercept(st, ev);
    var f := FeedUi(i.st, react, ev);
    Dispatched(f.st, i.calls + f.calls + (if Withheld(f.st, ev) then [] else Forward(mode, scene, ev)))
  }

  /** Interception sets the close flag exactly for the closing events, sets
      both sizes exactly on a resize, leaves the UI alone and calls no camera. */
  lemma InterceptFacts(st: DispatchState, ev: E.WindowEvent, cam: RenderMode)
    ensures var i := Intercept(st, ev);
            && i.st.shouldClose == (st.shouldClose || E.Closes(ev))
            && (ev.FramebufferSize? ==>
                  i.st.viewport == Some(Size(ev.w, ev.h)) && i.st.offscreen == Size(ev.w, ev.h))
            && (!ev.FramebufferSize? ==> i.st.viewport == st.viewport && i.st.offscreen == st.offscreen)
            && i.st.ui == st.ui
            && CameraEvents(i.calls, cam) == []
  {
    if !E.Closes(ev) && ev.FramebufferSize? {
      assert Intercept(st, ev).calls == [Scissor(Size(ev.w, ev.h))];
    }
  }

  /** Feeding the UI changes nothing but the UI state, gives a build without
      the UI no UI, and calls no camera. */
  lemma FeedUiFacts(st: DispatchState, react: UI.Reaction, ev: E.WindowEvent, cam: RenderMode)
    ensures var f := FeedUi(st, react, ev);
            && f.st.shouldClose == st.shouldClose
            && f.st.viewport == st.viewport && f.st.offscreen == st.offscreen
            && (st.ui.None? ==> f.st.ui.None?)
            && CameraEvents(f.calls, cam) == []
  {
    var f := FeedUi(st, react, ev);
    assert f.calls == [] || (|f.calls| == 1 && f.calls[0].UiInput?);
  }

  /** What handling one event does. The close flag is set exactly by the
      closing events and never cleared; a resize sets both sizes, any other
      event leaves them; a build without the UI stays without it; the camera of
      the other mode is never handed the event; the camera of the current mode
      is handed it exactly when that camera is supplied and the UI, once fed the
      event, does not withhold it, which closing the window does not prevent. */
  lemma DispatchEventFacts(st: DispatchState, mode: RenderMode, scene: Scene, react: UI.Reaction,
                           ev: E.WindowEvent)
    ensures var d := DispatchEvent(st, mode, scene, react, ev);
            && d.st.shouldClose == (st.shouldClose || E.Closes(ev))
            && (ev.FramebufferSize? ==>
                  d.st.viewport == Some(Size(ev.w, ev.h)) && d.st.offscreen == Size(ev.w, ev.h))
            && (!ev.FramebufferSize? ==> d.st.viewport == st.viewport && d.st.offscreen == st.offscreen)
            && (st.ui.None? ==> d.st.ui.None?)
            && CameraEvents(d.calls, Toggled(mode)) == []
            && CameraEvents(d.calls, mode) == if HasCamera(scene, mode) && !Withheld(d.st, ev) then [ev] else []
  {
    var i := Intercept(st, ev);
    var f := FeedUi(i.st, react, ev);
    InterceptFacts(st, ev, mode);
    InterceptFacts(st, ev, Toggled(mode));
    FeedUiFacts(i.st, react, ev, mode);
    FeedUiFacts(i.st, react, ev, Toggled(mode));
    var fwd := if Withheld(f.st, ev) then [] else Forward(mode, scene, ev);
    CameraEventsAppend(i.calls + f.calls, fwd, mode);
    CameraEventsAppend(i.calls + f.calls, fwd, Toggled(mode));
    CameraEventsAppend(i.calls, f.calls, mode);
    CameraEventsAppend(i.calls, f.calls, Toggled(mode));
  }

  /** Handling a batch of events one after the other, in order. */
  function DispatchAll(st: DispatchState, mode: RenderMode, scene: Scene, react: UI.Reaction,
                       evs: seq<E.WindowEvent>): Dispatched
    decreases |evs|
  {
    if evs == [] then Dispatched(st, [])
    else
      var d := DispatchEvent(st, mode, scene, react, evs[0]);
      DispatchEventFacts(st, mode, scene, react, evs[0]);
      var rest := DispatchAll(d.st, mode, scene, react, evs[1..]);
      Dispatched(rest.st, d.calls + rest.calls)
  }

  /** Handling `a + b` is handling `a` and then `b` from the state `a` left:
      every call made for an event of `a` precedes every call made for an
      event of `b`. */
  lemma {:induction false} DispatchAllAppend(st: DispatchState, mode: RenderMode, scene: Scene,
                                             react: UI.Reaction, a: seq<E.WindowEvent>, b: seq<E.WindowEvent>)
    ensures var da := DispatchAll(st, mode, scene, react, a);
            var db := DispatchAll(da.st, mode, scene, react, b);
            var dab := DispatchAll(st, mode, scene, react, a + b);
            dab.st == db.st && dab.calls == da.calls + db.calls
    decreases |a|
  {
    if a == [] {
      assert a + b == b;
    } else {
      AppendSplits(a, b);
      var d := DispatchEvent(st, mode, scene, react, a[0]);
      DispatchAllAppend(d.st, mode, scene, react, a[1..], b);
      var tail := DispatchAll(d.st, mode, scene, react, a[1..]);
      var db := DispatchAll(tail.st, mode, scene, react, b);
      assert d.calls + (tail.calls + db.calls) == (d.calls + tail.calls) + db.calls;
    }
  }

  /** A batch of one event is that event's handling. */
  lemma DispatchAllSingle(st: DispatchState, mode: RenderMode, scene: Scene, react: UI.Reaction,
                          ev: E.WindowEvent)
    ensures var d := DispatchEvent(st, mode, scene, react, ev);
            var one := DispatchAll(st, mode, scene, react, [ev]);
            one.st == d.st && one.calls == d.calls
  {
    assert [ev][1..] == [];
    var d := DispatchEvent(st, mode, scene, react, ev);
    assert d.calls + [] == d.calls;
  }

  /** Handling a prefix of a batch one event further is handling the next
      event from the state the prefix left. */
  lemma DispatchPrefixStep(st: DispatchState, mode: RenderMode, scene: Scene, react: UI.Reaction,
                           evs: seq<E.WindowEvent>, i: nat)
    requires i < |evs|
    ensures var d := DispatchAll(st, mode, scene, react, evs[..i]);
            var e := DispatchEvent(d.st, mode, scene, react, evs[i]);
            var after := DispatchAll(st, mode, scene, react, evs[..i + 1]);
            after.st == e.st && after.calls == d.calls + e.calls
  {
    var d := DispatchAll(st, mode, scene, react, evs[..i]);
    assert evs[..i + 1] == evs[..i] + [evs[i]];
    DispatchAllAppend(st, mode, scene, react, evs[..i], [evs[i]]);
    DispatchAllSingle(d.st, mode, scene, react, evs[i]);
  }

  lemma AppendSplits(a: seq<E.WindowEvent>, b: seq<E.WindowEvent>)
    requires a != []
    ensures a + b != [] && (a + b)[0] == a[0] && (a + b)[1..] == a[1..] + b
  {
  }

  /** Some event of the batch is a close request or an Escape release. */
  predicate AnyCloses(evs: seq<E.WindowEvent>)
    decreases |evs|
  {
    evs != [] && (E.Closes(evs[0]) || AnyCloses(evs[1..]))
  }

  lemma {:induction false} AnyClosesExists(evs: seq<E.WindowEvent>)
    ensures AnyCloses(evs) <==> exists i :: 0 <= i < |evs| && E.Closes(evs[i])
    decreases |evs|
  {
    if evs != [] {
      AnyClosesExists(evs[1..]);
      if exists i :: 0 <= i < |evs| && E.Closes(evs[i]) {
        var i :| 0 <= i < |evs| && E.Closes(evs[i]);
        if i > 0 {
          assert E.Closes(evs[1..][i - 1]);
        }
      }
      if exists i :: 0 <= i < |evs[1..]| && E.Closes(evs[1..][i]) {
        var i :| 0 <= i < |evs[1..]| && E.Closes(evs[1..][i]);
        assert E.Closes(evs[i + 1]);
      }
    }
  }

  lemma {:induction false} CloseFlagAfterBatchRec(st: DispatchState, mode: RenderMode, scene: Scene,
                                                  react: UI.Reaction, evs: seq<E.WindowEvent>)
    ensures DispatchAll(st, mode, scene, react, evs).st.shouldClose <==> st.shouldClose || AnyCloses(evs)
    decreases |evs|
  {
    if evs != [] {
      var d := DispatchEvent(st, mode, scene, react, evs[0]);
      DispatchEventFacts(st, mode, scene, react, evs[0]);
      CloseFlagAfterBatchRec(d.st, mode, scene, react, evs[1..]);
    }
  }

  /** After a batch the close flag is set exactly when it was set before or
      some event of the batch was a close request or an Escape release. */
  lemma CloseFlagAfterBatch(st: DispatchState, mode: RenderMode, scene: Scene,
                            react: UI.Reaction, evs: seq<E.WindowEvent>)
    ensures DispatchAll(st, mode, scene, react, evs).st.shouldClose <==>
              st.shouldClose || exists i :: 0 <= i < |evs| && E.Closes(evs[i])
  {
    CloseFlagAfterBatchRec(st, mode, scene, react, evs);
    AnyClosesExists(evs);
  }

  /** The last resize of a batch, if it has one. */
  function LastResize(evs: seq<E.WindowEvent>): Option<Size>
    decreases |evs|
  {
    if evs == [] then None
    else match LastResize(evs[1..])
      case Some(s) => Some(s)
      case None => if evs[0].FramebufferSize? then Some(Size(evs[0].w, evs[0].h)) else None
  }

  /** After a batch the screen viewport and the offscreen target both have the
      size of the last resize of the batch; a batch without a resize leaves
      both as they were. */
  lemma {:induction false} SizesAfterBatch(st: DispatchState, mode: RenderMode, scene: Scene,
                                           react: UI.Reaction, evs: seq<E.WindowEvent>)
    ensures var after := DispatchAll(st, mode, scene, react, evs).st;
            match LastResize(evs)
            case Some(s) => after.viewport == Some(s) && after.offscreen == s
            case None => after.viewport == st.viewport && after.offscreen == st.offscreen
    decreases |evs|
  {
    if evs != [] {
      var d := DispatchEvent(st, mode, scene, react, evs[0]);
      DispatchEventFacts(st, mode, scene, react, evs[0]);
      SizesAfterBatch(d.st, mode, scene, react, evs[1..]);
    }
  }

  /** Dispatch keeps the screen viewport in agreement with the offscreen
      target. */
  lemma {:induction false} BatchKeepsViewportAgreement(st: DispatchState, mode: RenderMode, scene: Scene,
                                                       react: UI.Reaction, evs: seq<E.WindowEvent>)
    requires ViewportAgrees(st)
    ensures ViewportAgrees(DispatchAll(st, mode, scene, react, evs).st)
    decreases |evs|
  {
    if evs != [] {
      var d := DispatchEvent(st, mode, scene, react, evs[0]);
      DispatchEventFacts(st, mode, scene, react, evs[0]);
      BatchKeepsViewportAgreement(d.st, mode, scene, react, evs[1..]);
    }
  }

  /** The camera of the other mode is handed no event of the batch. */
  lemma {:induction false} OtherCameraSeesNothing(st: DispatchState, mode: RenderMode, scene: Scene,
                                                  react: UI.Reaction, evs: seq<E.WindowEvent>)
    ensures CameraEvents(DispatchAll(st, mode, scene, react, evs).calls, Toggled(mode)) == []
    decreases |evs|
  {
    if evs != [] {
      var d := DispatchEvent(st, mode, scene, react, evs[0]);
      DispatchEventFacts(st, mode, scene, react, evs[0]);
      OtherCameraSeesNothing(d.st, mode, scene, react, evs[1..]);
      CameraEventsAppend(d.calls, DispatchAll(d.st, mode, scene, react, evs[1..]).calls, Toggled(mode));
    }
  }

  /** Without the embedded UI, the camera of the current mode, when supplied,
      is handed every event of the batch, in order, close requests and Escape
      releases included; when it is not supplied it is handed none. */
  lemma {:induction false} CameraSeesWholeBatch(st: DispatchState, mode: RenderMode, scene: Scene,
                                                react: UI.Reaction, evs: seq<E.WindowEvent>)
    requires st.ui.None?
    ensures CameraEvents(DispatchAll(st, mode, scene, react, evs).calls, mode) ==
              if HasCamera(scene, mode) then evs else []
    decreases |evs|
  {
    if evs != [] {
      var d := DispatchEvent(st, mode, scene, react, evs[0]);
      DispatchEventFacts(st, mode, scene, react, evs[0]);
      var rest := DispatchAll(d.st, mode, scene, react, evs[1..]);
      CameraSeesWholeBatch(d.st, mode, scene, react, evs[1..]);
      CameraEventsAppend(d.calls, rest.calls, mode);
      assert !Withheld(d.st, evs[0]);
      if HasCamera(scene, mode) {
        assert CameraEvents(d.calls, mode) == [evs[0]];
        assert evs == [evs[0]] + evs[1..];
      } else {
        assert CameraEvents(d.calls, mode) == [];
      }
    }
  }

  /** With or without the UI, the events a camera of the current mode is
      handed are those of the batch that a selection keeps, in their order:
      each event is handed over at most once and none is reordered. A missing
      camera is handed nothing. */
  lemma {:induction false} CameraSeesSelection(st: DispatchState, mode: RenderMode, scene: Scene,
                                               react: UI.Reaction, evs: seq<E.WindowEvent>)
    returns (kept: seq<bool>)
    ensures |kept| == |evs|
    ensures CameraEvents(DispatchAll(st, mode, scene, react, evs).calls, mode) == Selected(evs, kept)
    ensures !HasCamera(scene, mode) ==> forall i :: 0 <= i < |kept| ==> !kept[i]
    decreases |evs|
  {
    if evs == [] {
      kept := [];
    } else {
      var d := DispatchEvent(st, mode, scene, react, evs[0]);
      DispatchEventFacts(st, mode, scene, react, evs[0]);
      var rest := CameraSeesSelection(d.st, mode, scene, react, evs[1..]);
      CameraEventsAppend(d.calls, DispatchAll(d.st, mode, scene, react, evs[1..]).calls, mode);
      kept := [HasCamera(scene, mode) && !Withheld(d.st, evs[0])] + rest;
      assert kept[1..] == rest;
    }
  }

  /** The elements of `evs` whose flag in `kept` is set, in order. */
  function Selected(evs: seq<E.WindowEvent>, kept: seq<bool>): seq<E.WindowEvent>
    requires |kept| == |evs|
    decreases |evs|
  {
    if evs == [] then []
    else (if kept[0] then [evs[0]] else []) + Selected(evs[1..], kept[1..])
  }
}
