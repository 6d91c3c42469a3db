/** The base renderer: the scene it builds in `initScene`, the animation
    frame with its pause and frame-rate gate, the visibility events, and
    `addToScene`, `clearScene` and `dispose`. */
module RenderBase {
  import opened Js
  import opened RenderOptions
  import opened Viewport
  import opened SceneGraph
  import opened FrameLimiter

  // ---------------------------------------------------------------------------
  // The pieces of renderer state that are not scene objects
  // ---------------------------------------------------------------------------

  /** The `OnScreen` visibility observer: never created, watching the
      canvas, or destroyed by `dispose`. */
  datatype Observer = NoObserver | Watching | Destroyed

  /** The renderer's canvas element: not created yet, in the host element,
      or taken out of it. */
  datatype Canvas = NoCanvas | Attached | Detached

  /** The WebGL context of the renderer: no renderer yet, live, lost on
      purpose while off screen, or released by `dispose`. */
  datatype Context = NoRenderer | Live | Lost | Released

  /** What the renderer holds outside the scene: its canvas, how many
      children the host element has, whether the window `resize` listener
      is registered, and the WebGL context. */
  datatype Display = Display(canvas: Canvas, hostChildren: nat, resizeListener: bool, context: Context)

  /** A whole renderer state, so that a method can state what it changes. */
  datatype RenderState = RenderState(
    scene: Option<seq<Object3D>>,
    view: Viewport?,
    onScreen: Option<bool>,
    limiter: Limiter,
    frames: nat,
    pendingFrame: Option<int>,
    observer: Observer,
    display: Display)

  // ---------------------------------------------------------------------------
  // What initScene reads from the options
  // ---------------------------------------------------------------------------

  /** A canvas side, or the window's when the option is falsy. */
  function Side(v: JsValue, window: real): real
  {
    if v.Num? && v.n != 0.0 then v.n else window
  }

  /** `options.camera.type` and `options.canvas.width/height` can be read:
      neither the camera nor the canvas option is `undefined` or `null`. */
  predicate CameraReadable(options: map<string, JsValue>)
  {
    Prop(Setting(options, "camera"), "type").Ok? && Prop(Setting(options, "canvas"), "width").Ok?
  }

  /** `options.controls.zoom` and `options.camera.target[0]` can be read. */
  predicate ControlsReadable(options: map<string, JsValue>)
  {
    && Prop(Setting(options, "controls"), "zoom").Ok?
    && Prop(Setting(options, "camera"), "target").Ok?
    && Elem(Prop(Setting(options, "camera"), "target").value, 0).Ok?
  }

  /** The camera `initScene` creates for a canvas of `w` by `h`. */
  function InitialCamera(options: map<string, JsValue>, w: real, h: real): (c: Camera)
    requires CameraReadable(options)
    ensures c.Orthographic? <==> Prop(Setting(options, "camera"), "type") == Ok(Str("orthographic"))
  {
    if Prop(Setting(options, "camera"), "type") == Ok(Str("orthographic")) then OrthoBounds(w, h)
    else Perspective(Div(w, h))
  }

  /** The debugging helpers `initScene` adds, then the light. */
  function InitialChildren(options: map<string, JsValue>): (cs: seq<Object3D>)
    ensures |cs| >= 1 && cs[|cs| - 1] == Light()
    ensures |cs| == 1 + (if Truthy(Setting(options, "showAxes")) then 1 else 0)
                      + (if Truthy(Setting(options, "showGrid")) then 1 else 0)
  {
    (if Truthy(Setting(options, "showAxes")) then [Helper(AxesHelper)] else [])
    + (if Truthy(Setting(options, "showGrid")) then [Helper(GridHelper)] else [])
    + [Light()]
  }

  function Helper(kind: Kind): Object3D
  {
    Object3D(kind, None, NoMaterial, None, [], None)
  }

  /** The limiter for the `frameRateLimit` option: active iff the option
      compares greater than zero. */
  function LimiterFor(options: map<string, JsValue>): (l: Limiter)
    ensures l.Limit? <==> Positive(Setting(options, "frameRateLimit"))
    ensures Settled(l)
  {
    var v := Setting(options, "frameRateLimit");
    if Positive(v) then FrameLimiter.Setup(AsNumber(v)) else NoLimit
  }

  // ---------------------------------------------------------------------------
  // The animation frame
  // ---------------------------------------------------------------------------

  /** The early return of `animate`: with `pauseHidden`, a hidden page or a
      renderer that is not known to be on screen skips the frame. An
      `onScreen` that was never set counts as off screen. */
  predicate Paused(pauseHidden: bool, hidden: bool, onScreen: Option<bool>)
  {
    pauseHidden && (hidden || onScreen != Some(true))
  }

  /** The state after one `animate` call with frame id `frameId`, page
      visibility `hidden` and clock delta `dt`: the next frame is always
      requested; past the pause gate the limiter decides whether the
      composer renders. */
  function Animated(s: RenderState, pauseHidden: bool, frameId: int, hidden: bool, dt: real): (t: RenderState)
    requires WellFormed(s.limiter)
    ensures t.pendingFrame == Some(frameId)
    ensures t.frames == s.frames || t.frames == s.frames + 1
    ensures Paused(pauseHidden, hidden, s.onScreen) ==> t == s.(pendingFrame := Some(frameId))
  {
    if Paused(pauseHidden, hidden, s.onScreen) then s.(pendingFrame := Some(frameId))
    else
      var (l, rendered) := FrameLimiter.Step(s.limiter, dt);
      s.(pendingFrame := Some(frameId), limiter := l, frames := if rendered then s.frames + 1 else s.frames)
  }

  /** A paused frame never touches the limiter or the composer. */
  lemma PausedFrameKeepsState(s: RenderState, frameId: int, hidden: bool, dt: real)
    requires WellFormed(s.limiter) && s.onScreen != Some(true)
    ensures Animated(s, true, frameId, hidden, dt).limiter == s.limiter
    ensures Animated(s, true, frameId, hidden, dt).frames == s.frames
  {
  }

  /** Without `pauseHidden` and without a limiter every frame renders. */
  lemma UnpausedUnlimitedFrameRenders(s: RenderState, frameId: int, hidden: bool, dt: real)
    requires s.limiter.NoLimit?
    ensures Animated(s, false, frameId, hidden, dt).frames == s.frames + 1
  {
  }

  /** A frame on screen renders iff the limiter lets it. */
  lemma VisibleFrameFollowsLimiter(s: RenderState, pauseHidden: bool, frameId: int, dt: real)
    requires WellFormed(s.limiter) && s.onScreen == Some(true)
    ensures var t := Animated(s, pauseHidden, frameId, false, dt);
      (t.frames == s.frames + 1 <==> FrameLimiter.Step(s.limiter, dt).1)
      && t.limiter == FrameLimiter.Step(s.limiter, dt).0
  {
  }

  // ---------------------------------------------------------------------------
  // clearScene with a filter
  // ---------------------------------------------------------------------------

  /** The arguments of a filtered `clearScene` and the renderer's own type:
      `onlySelfType`, and the `filterFn` that keeps the children it is true
      for. */
  datatype Filter = Filter(onlySelfType: bool, keep: Option<Object3D -> bool>, renderType: string)

  /** Whether the filtered `clearScene` removes child `c`: the filter
      function does not keep it and, with `onlySelfType`, it carries this
      renderer's type. */
  predicate Removes(f: Filter, c: Object3D)
  {
    !(f.keep.Some? && f.keep.value(c)) && !(f.onlySelfType && c.renderType != Some(f.renderType))
  }

  /** The children the filtered `clearScene` leaves, in their order. */
  function Survivors(f: Filter, cs: seq<Object3D>): (r: seq<Object3D>)
    ensures |r| <= |cs|
  {
    if cs == [] then []
    else
      var head := if Removes(f, cs[0]) then [] else [cs[0]];
      head + Survivors(f, cs[1..])
  }

  /** The children the filtered `clearScene` removes, from last to first. */
  function RemovedBackward(f: Filter, cs: seq<Object3D>): (r: seq<Object3D>)
    ensures |r| <= |cs|
  {
    if cs == [] then []
    else
      var head := if Removes(f, cs[0]) then [cs[0]] else [];
      RemovedBackward(f, cs[1..]) + head
  }

  /** Exactly the children that are not removed survive, and exactly the
      others are removed; none is lost or duplicated. */
  lemma {:induction false} ClearSplitsChildren(f: Filter, cs: seq<Object3D>)
    ensures forall c :: c in Survivors(f, cs) <==> c in cs && !Removes(f, c)
    ensures forall c :: c in RemovedBackward(f, cs) <==> c in cs && Removes(f, c)
    ensures |Survivors(f, cs)| + |RemovedBackward(f, cs)| == |cs|
  {
    if cs != [] {
      ClearSplitsChildren(f, cs[1..]);
      assert cs == [cs[0]] + cs[1..];
    }
  }

  /** With `onlySelfType` and no filter function, exactly the children not
      tagged with this renderer's type survive. */
  lemma SelfTypeOnlyRemovesOwn(cs: seq<Object3D>, renderType: string)
    ensures forall c :: c in Survivors(Filter(true, None, renderType), cs) <==>
      c in cs && c.renderType != Some(renderType)
  {
    ClearSplitsChildren(Filter(true, None, renderType), cs);
  }

  /** Handling child `i - 1` of the filtered `clearScene` loop: the
      survivors and the removed children of the suffix from `i - 1`. */
  lemma ClearStep(f: Filter, cs: seq<Object3D>, i: nat)
    requires 0 < i <= |cs|
    ensures Removes(f, cs[i - 1]) ==> Survivors(f, cs[i - 1..]) == Survivors(f, cs[i..])
    ensures !Removes(f, cs[i - 1]) ==> Survivors(f, cs[i - 1..]) == [cs[i - 1]] + Survivors(f, cs[i..])
    ensures Removes(f, cs[i - 1]) ==> RemovedBackward(f, cs[i - 1..]) == RemovedBackward(f, cs[i..]) + [cs[i - 1]]
    ensures !Removes(f, cs[i - 1]) ==> RemovedBackward(f, cs[i - 1..]) == RemovedBackward(f, cs[i..])
  {
    assert cs[i - 1..][1..] == cs[i..];
    if Removes(f, cs[i - 1]) {
      assert Survivors(f, cs[i - 1..]) == [] + Survivors(f, cs[i..]);
    } else {
      assert RemovedBackward(f, cs[i - 1..]) == RemovedBackward(f, cs[i..]) + [];
    }
  }

  /** The loop keeps the list of children equal to the unvisited prefix
      followed by the survivors so far. */
  lemma ClearStepKids(f: Filter, cs: seq<Object3D>, i: nat, kids: seq<Object3D>)
    requires 0 < i <= |cs|
    requires kids == cs[..i] + Survivors(f, cs[i..])
    ensures kids[i - 1] == cs[i - 1]
    ensures Removes(f, cs[i - 1]) ==> kids[..i - 1] + kids[i..] == cs[..i - 1] + Survivors(f, cs[i - 1..])
    ensures !Removes(f, cs[i - 1]) ==> kids == cs[..i - 1] + Survivors(f, cs[i - 1..])
  {
    ClearStep(f, cs, i);
    assert cs[..i] == cs[..i - 1] + [cs[i - 1]];
    assert kids[..i - 1] == cs[..i - 1] && kids[i..] == Survivors(f, cs[i..]);
  }

  /** The loop keeps `disposed` equal to the disposals of the children
      removed so far, from the last one on; `d` is what disposing child
      `i - 1` yields. */
  lemma ClearStepDisposed(f: Filter, cs: seq<Object3D>, i: nat, disposed: seq<Resource>, d: seq<Resource>)
    requires 0 < i <= |cs|
    requires disposed == DisposeEach(RemovedBackward(f, cs[i..]))
    ensures Removes(f, cs[i - 1]) && d == DisposeOrder(cs[i - 1]) ==>
      disposed + d == DisposeEach(RemovedBackward(f, cs[i - 1..]))
    ensures !Removes(f, cs[i - 1]) ==> disposed == DisposeEach(RemovedBackward(f, cs[i - 1..]))
  {
    ClearStep(f, cs, i);
    DisposeEachAppend(RemovedBackward(f, cs[i..]), cs[i - 1]);
  }

  // ---------------------------------------------------------------------------
  // The renderer
  // ---------------------------------------------------------------------------

  /** A renderer: the merged options and type tag it was built with, and the
      state its methods update in place. */
  class Render {
    const options: map<string, JsValue>
    const renderType: string
    var scene: Option<seq<Object3D>>
    var view: Viewport?
    var onScreen: Option<bool>
    var limiter: Limiter
    var frames: nat
    var pendingFrame: Option<int>
    var observer: Observer
    var display: Display

    function State(): RenderState
      reads this
    {
      RenderState(scene, view, onScreen, limiter, frames, pendingFrame, observer, display)
    }

    /** The limiter always has a positive interval. */
    predicate Valid()
      reads this
    {
      WellFormed(limiter)
    }

    predicate PauseHidden()
    {
      Truthy(Setting(options, "pauseHidden"))
    }

    /** The constructor: the options are `defaultOptions`, then the
        renderer's own defaults, then the caller's options, merged; nothing
        else exists yet. `renderType` is the tag the concrete renderer
        assigns right after (`"_Base_"` for the base class). */
    constructor(options: JsValue, defOptions: JsValue, renderType: string, hostChildren: nat)
      ensures this.options == MergeOptions(defOptions, options) && this.renderType == renderType
      ensures State() == RenderState(None, null, None, NoLimit, 0, None, NoObserver,
        Display(NoCanvas, hostChildren, false, NoRenderer))
      ensures Valid()
    {
      this.options := MergeOptions(defOptions, options);
      this.renderType := renderType;
      scene := None;
      view := null;
      onScreen := None;
      limiter := NoLimit;
      frames := 0;
      pendingFrame := None;
      observer := NoObserver;
      display := Display(NoCanvas, hostChildren, false, NoRenderer);
    }

    /** `initScene`: a new scene; the camera, renderer and composer sized
        to the canvas options or the window; the resize listener with
        `autoResize`; the helpers and the light; the controls; the limiter;
        the first frame unless `doNotAnimate`; then the visibility state.
        Reading `camera` or `canvas` options that are missing throws right
        after the scene is created; reading missing `controls` or camera
        `target` throws after the renderer, helpers and light exist. */
    method InitScene(innerWidth: real, innerHeight: real, doNotAnimate: bool, frameId: int, hidden: bool, dt: real)
      returns (r: Result<()>)
      requires Valid()
      modifies this
      ensures Valid()
      ensures r.Ok? <==> CameraReadable(options) && ControlsReadable(options)
      ensures !CameraReadable(options) ==> State() == old(State()).(scene := Some([]))
      ensures CameraReadable(options) ==> view != null && fresh(view)
      ensures CameraReadable(options) ==> view.camera == InitialCamera(options,
        Side(GetNested(options, "canvas", "width"), innerWidth), Side(GetNested(options, "canvas", "height"), innerHeight))
      ensures CameraReadable(options) ==>
        var size := Size(Side(GetNested(options, "canvas", "width"), innerWidth),
                         Side(GetNested(options, "canvas", "height"), innerHeight));
        view.rendererSize == size && view.composerSize == size
      ensures CameraReadable(options) ==> scene == Some(InitialChildren(options))
      ensures CameraReadable(options) ==> display == old(display).(canvas := Attached,
        hostChildren := old(display).hostChildren + 1,
        resizeListener := old(display).resizeListener || Truthy(Setting(options, "autoResize")),
        context := Live)
      ensures CameraReadable(options) && !ControlsReadable(options) ==>
        onScreen == old(onScreen) && limiter == old(limiter) && frames == old(frames)
        && pendingFrame == old(pendingFrame) && observer == old(observer)
      ensures r.Ok? && doNotAnimate ==> limiter == LimiterFor(options) && frames == old(frames) && pendingFrame == old(pendingFrame)
      ensures r.Ok? && !doNotAnimate ==>
        var s := Animated(old(State()).(limiter := LimiterFor(options)), PauseHidden(), frameId, hidden, dt);
        frames == s.frames && pendingFrame == s.pendingFrame && limiter == s.limiter
      ensures r.Ok? ==> onScreen == Some(!PauseHidden())
      ensures r.Ok? ==> observer == if PauseHidden() then Watching else old(observer)
    {
      scene := Some([]);
      if !CameraReadable(options) {
        return Err(TypeError);
      }
      var w := Side(GetNested(options, "canvas", "width"), innerWidth);
      var h := Side(GetNested(options, "canvas", "height"), innerHeight);
      BuildView(InitialCamera(options, w, h), Size(w, h));
      scene := Some(InitialChildren(options));
      if !ControlsReadable(options) {
        return Err(TypeError);
      }
      StartLoop(doNotAnimate, frameId, hidden, dt);
      r := Ok(());
    }

    /** The camera, the renderer with its canvas appended to the host, the
        composer, and the resize listener with `autoResize`. */
    method BuildView(camera: Camera, size: Size)
      modifies this
      ensures fresh(view) && view.camera == camera && view.rendererSize == size && view.composerSize == size
      ensures display == old(display).(canvas := Attached, hostChildren := old(display).hostChildren + 1,
                                       resizeListener := old(display).resizeListener || Truthy(Setting(options, "autoResize")),
                                       context := Live)
      ensures scene == old(scene) && onScreen == old(onScreen) && limiter == old(limiter)
      ensures frames == old(frames) && pendingFrame == old(pendingFrame) && observer == old(observer)
    {
      view := new Viewport(camera, size);
      display := display.(canvas := Attached, hostChildren := display.hostChildren + 1, context := Live);
      if Truthy(Setting(options, "autoResize")) {
        display := display.(resizeListener := true);
      }
    }

    /** The limiter, the first frame unless `doNotAnimate`, then `onScreen`
        (true, or false under `pauseHidden` with an observer watching). */
    method StartLoop(doNotAnimate: bool, frameId: int, hidden: bool, dt: real)
      modifies this
      ensures Valid()
      ensures doNotAnimate ==> limiter == LimiterFor(options) && frames == old(frames) && pendingFrame == old(pendingFrame)
      ensures !doNotAnimate ==>
        var s := Animated(old(State()).(limiter := LimiterFor(options)), PauseHidden(), frameId, hidden, dt);
        frames == s.frames && pendingFrame == s.pendingFrame && limiter == s.limiter
      ensures onScreen == Some(!PauseHidden())
      ensures observer == if PauseHidden() then Watching else old(observer)
      ensures scene == old(scene) && view == old(view) && display == old(display)
    {
      limiter := LimiterFor(options);
      if !doNotAnimate {
        Animate(frameId, hidden, dt);
      }
      onScreen := Some(true);
      if PauseHidden() {
        onScreen := Some(false);
        observer := Watching;
      }
    }

    /** One `animate` call: request the next frame, then stop if paused;
        otherwise let the limiter decide and count a rendered frame. */
    method Animate(frameId: int, hidden: bool, dt: real)
      requires Valid()
      modifies this
      ensures Valid()
      ensures State() == Animated(old(State()), PauseHidden(), frameId, hidden, dt)
    {
      pendingFrame := Some(frameId);
      if Paused(PauseHidden(), hidden, onScreen) {
        return;
      }
      var step := FrameLimiter.Step(limiter, dt);
      limiter := step.0;
      if step.1 {
        frames := frames + 1;
      }
    }

    /** The observer's `enter` event: on screen again, and with
        `forceContext` the WebGL context is restored. */
    method OnEnter()
      requires observer == Watching
      modifies this
      ensures State() == old(State()).(onScreen := Some(true),
        display := if Truthy(Setting(options, "forceContext")) then old(display).(context := Live) else old(display))
    {
      onScreen := Some(true);
      if Truthy(Setting(options, "forceContext")) {
        display := display.(context := Live);
      }
    }

    /** The observer's `leave` event: off screen, and with `forceContext`
        the WebGL context is dropped. */
    method OnLeave()
      requires observer == Watching
      modifies this
      ensures State() == old(State()).(onScreen := Some(false),
        display := if Truthy(Setting(options, "forceContext")) then old(display).(context := Lost) else old(display))
    {
      onScreen := Some(false);
      if Truthy(Setting(options, "forceContext")) {
        display := display.(context := Lost);
      }
    }

    /** `_resize` as `initScene` defines it; before `initScene` there is
        none to call. */
    method Resize(w: real, h: real) returns (r: Result<()>)
      modifies view
      ensures r.Ok? <==> view != null
      ensures view != null && old(view.camera).Orthographic? ==> view.camera == OrthoBounds(w, h)
      ensures view != null && old(view.camera).Perspective? ==> view.camera == Perspective(Div(w, h))
      ensures view != null ==> view.rendererSize == Size(w, h) && view.composerSize == Size(w, h)
    {
      if view == null {
        return Err(TypeError);
      }
      view.Resize(w, h);
      r := Ok(());
    }

    /** `addToScene`: when both the scene and the object exist, the object
        is tagged with this renderer's type and appended. */
    method AddToScene(toAdd: Option<Object3D>)
      modifies this
      ensures scene.Some? <==> old(scene).Some?
      ensures old(scene).Some? && toAdd.Some? ==>
        scene.value == old(scene).value + [toAdd.value.(renderType := Some(renderType))]
      ensures old(scene).None? || toAdd.None? ==> scene == old(scene)
      ensures view == old(view) && onScreen == old(onScreen) && limiter == old(limiter) && frames == old(frames)
      ensures pendingFrame == old(pendingFrame) && observer == old(observer) && display == old(display)
    {
      if scene.Some? && toAdd.Some? {
        scene := Some(scene.value + [toAdd.value.(renderType := Some(renderType))]);
      }
    }

    /** `initLight`: one soft white ambient light is added to the scene. */
    method InitLight()
      requires scene.Some?
      modifies this
      ensures State() == old(State()).(scene := Some(old(scene).value + [Light()]))
    {
      scene := Some(scene.value + [Light()]);
    }

    /** `clearScene(onlySelfType, filterFn)`. With either argument, the
        children are visited from last to first and each one the filter
        does not keep (and, with `onlySelfType`, that carries this
        renderer's type) is deep-disposed and removed. With neither, every
        child is removed without disposal and a new light is added. Without
        a scene it throws. */
    method ClearScene(onlySelfType: bool, keep: Option<Object3D -> bool>) returns (r: Result<()>, disposed: seq<Resource>)
      modifies this
      ensures r.Ok? <==> old(scene).Some?
      ensures r.Err? ==> State() == old(State()) && disposed == []
      ensures r.Ok? && (onlySelfType || keep.Some?) ==>
        var f := Filter(onlySelfType, keep, renderType);
        scene == Some(Survivors(f, old(scene).value)) && disposed == DisposeEach(RemovedBackward(f, old(scene).value))
      ensures r.Ok? && !(onlySelfType || keep.Some?) ==> scene == Some([Light()]) && disposed == []
      ensures view == old(view) && onScreen == old(onScreen) && limiter == old(limiter) && frames == old(frames)
      ensures pendingFrame == old(pendingFrame) && observer == old(observer) && display == old(display)
    {
      if scene.None? {
        return Err(TypeError), [];
      }
      if onlySelfType || keep.Some? {
        var kids;
        kids, disposed := ClearFiltered(Filter(onlySelfType, keep, renderType), scene.value);
        scene := Some(kids);
      } else {
        var kids := RemoveAll(scene.value);
        scene := Some(kids);
        assert scene == Some([]);
        InitLight();
        assert scene.value == [] + [Light()] == [Light()];
        disposed := [];
      }
      r := Ok(());
    }

    /** The filtered loop, from the last child to the first. */
    method ClearFiltered(f: Filter, children: seq<Object3D>) returns (kids: seq<Object3D>, disposed: seq<Resource>)
      ensures kids == Survivors(f, children)
      ensures disposed == DisposeEach(RemovedBackward(f, children))
    {
      kids := children;
      disposed := [];
      var i := |children|;
      while i > 0
        invariant 0 <= i <= |children|
        invariant kids == children[..i] + Survivors(f, children[i..])
        invariant disposed == DisposeEach(RemovedBackward(f, children[i..]))
      {
        ClearStepKids(f, children, i, kids);
        var child := kids[i - 1];
        var d := [];
        if Removes(f, child) {
          var _, disposedChild := DeepDisposeMesh(Some(child), true);
          d := disposedChild;
        }
        ClearStepDisposed(f, children, i, disposed, d);
        if Removes(f, child) {
          disposed := disposed + d;
          kids := kids[..i - 1] + kids[i..];
        }
        i := i - 1;
      }
      assert children[0..] == children;
    }

    /** `scene.remove(scene.children[0])` while any child is left. */
    method RemoveAll(children: seq<Object3D>) returns (kids: seq<Object3D>)
      ensures kids == []
    {
      kids := children;
      while |kids| > 0
        decreases |kids|
      {
        kids := kids[1..];
      }
    }

    /** `dispose`: cancel the pending frame, destroy the observer, clear the
        scene (leaving the new light), take the canvas out, empty the host
        element, drop the resize listener with `autoResize`, and release
        the WebGL context. Throws without a scene or a canvas. */
    method Dispose() returns (r: Result<()>)
      modifies this
      ensures pendingFrame.None?
      ensures observer == if old(observer) == NoObserver then NoObserver else Destroyed
      ensures old(scene).None? ==> r.Err? && scene.None? && display == old(display)
      ensures old(scene).Some? ==> scene == Some([Light()])
      ensures old(scene).Some? && old(display).canvas.NoCanvas? ==> r.Err? && display == old(display)
      ensures r.Ok? <==> old(scene).Some? && !old(display).canvas.NoCanvas?
      ensures r.Ok? ==> display == Display(Detached, 0,
        old(display).resizeListener && !Truthy(Setting(options, "autoResize")),
        if old(display).context.NoRenderer? then NoRenderer else Released)
      ensures view == old(view) && onScreen == old(onScreen) && limiter == old(limiter) && frames == old(frames)
    {
      pendingFrame := None;
      if observer != NoObserver {
        observer := Destroyed;
      }
      var cleared, _ := ClearScene(false, None);
      if cleared.Err? {
        return Err(TypeError);
      }
      if display.canvas.NoCanvas? {
        return Err(TypeError);
      }
      RemoveCanvas();
      EmptyHost();
      if Truthy(Setting(options, "autoResize")) {
        display := display.(resizeListener := false);
      }
      if !display.context.NoRenderer? {
        display := display.(context := Released);
      }
      r := Ok(());
    }

    /** `_canvas.remove()`: an attached canvas leaves the host element. */
    method RemoveCanvas()
      requires !display.canvas.NoCanvas?
      modifies this
      ensures State() == old(State()).(display := old(display).(canvas := Detached,
        hostChildren := if old(display).canvas.Attached? && old(display).hostChildren > 0
                        then old(display).hostChildren - 1 else old(display).hostChildren))
    {
      if display.canvas.Attached? && display.hostChildren > 0 {
        display := display.(hostChildren := display.hostChildren - 1);
      }
      display := display.(canvas := Detached);
    }

    /** `el.removeChild(el.firstChild)` while the host has a child. */
    method EmptyHost()
      modifies this
      ensures State() == old(State()).(display := old(display).(hostChildren := 0))
    {
      while display.hostChildren > 0
        invariant State() == old(State()).(display := old(display).(hostChildren := display.hostChildren))
        decreases display.hostChildren
      {
        display := display.(hostChildren := display.hostChildren - 1);
      }
    }
  }

  /** Disposing one more removed child appends its disposals. */
  lemma DisposeEachAppend(cs: seq<Object3D>, c: Object3D)
    ensures DisposeEach(cs + [c]) == DisposeEach(cs) + DisposeOrder(c)
  {
    assert (cs + [c])[..|cs + [c]| - 1] == cs;
  }
}
