# MineRender skin renderer and base renderer, modelled in Dafny

This project models two parts of MineRender, a browser library that draws
Minecraft skins and scenes with three.js:

- **The skin renderer** (`src/skin/index.js`). Its `render` classifies a texture descriptor and picks the
  skin and cape sources. It detects the atlas layout version from the skin height and the slim-arm
  variant from two alpha columns. It coordinates the skin and cape image callbacks through the
  `skinLoaded` / `capeLoaded` / `renderStarted` flags, so the model is built once. Building the
  model means `createPlayerModel`: a fixed tree of pivot groups, each holding cuboids made by
  `createCube`. `createCube` maps every face rectangle of the atlas to UV corners, flips them and
  splits each face into two triangles. The skin renderer's `_resize` sizes the composer by the pixel
  ratio.
- **The base renderer** (`src/renderBase.js`). Its constructor merges the options shallowly.
  `initScene` builds the camera, renderer, composer, helpers and light. It sets up the frame-rate
  limiter and the `onScreen` visibility state, and runs `animate`, whose frames pass a pause gate
  and then the limiter. The class also has `_resize`, `addToScene`, `clearScene` (filtered and
  unfiltered), `initLight` and `dispose`. Two free functions complete it: `deepDisposeMesh`, which
  walks a scene tree, and `mergeCubeMeshes`.

The modules follow the program:

- `Js`: the JavaScript values, truthiness, exceptions and division the models need.
- `EventLoop`: callbacks run one at a time.
- `RealArith`: real quotients and repeated addition.
- `SkinTexture`: version, slim detection and descriptor dispatch.
- `SkinCube`: `createCube`.
- `SkinModel`: `createPlayerModel` and the model half of `imagesLoaded`.
- `SkinLoader`: the load barrier and `reset`, as the class `SkinRender`.
- `Viewport`: the camera and surface sizes, and both `_resize` functions.
- `SceneGraph`: scene objects, `deepDisposeMesh` and `mergeCubeMeshes`.
- `RenderOptions`: the defaults, the merge and the option reads.
- `FrameLimiter`: the frame-rate limiter.
- `RenderBase`: the class `Render`.

Code that updates state in place is modelled as methods with loops: the slim scan, the UV arrays,
the load callbacks, the disposal walk, the material loop, the `clearScene` loops, `animate` and
`dispose`. Each method is proved against a specification function, and the lemmas state what the
source promises about that function.

Behaviour of the code worth noting:

- `flipX` reverses the four corners; it is not a rotation by one.
- If the cape image fails *before* the skin loads, the skin's load handler still passes the cape
  texture to `imagesLoaded`. Only a failure after the skin has loaded drops it.
- An unknown layout version (-1) does not degrade gracefully. `texturePositions.head[-1]` is
  `undefined`, so `createCube` throws a `TypeError`.
- The cape's error handler has no `reset` guard. A cape property that is present but empty
  (`capeUrl: ""`) makes the renderer wait forever.
- A username lookup answered after `reset` throws.
- `dispose` ends with one light in the scene. It calls the unfiltered `clearScene`, which adds a
  new light.
- The first `animate` runs before `onScreen` is set. With `pauseHidden`, that first frame is skipped.
- `deepDisposeMesh` never disposes a material array, because an array has no `dispose`.

## Model

| member | source | states |
|---|---|---|
| SkinTexture.TextureVersion | src/skin/index.js:65-72 | The version is 0 exactly for height 32, 1 exactly for height 64, and -1 for every other height. |
| SkinTexture.DetectSlim | src/skin/index.js:211-227 | The scan answers "slim" exactly when no alpha byte of either 12-pixel column equals 255. |
| SkinTexture.TranslucentColumnsAreSlim | src/skin/index.js:215-224 | Columns whose bytes are all below 255 count as clear, so semi-transparent pixels are transparent. |
| SkinTexture.OpaquePixelMeansClassic | src/skin/index.js:215-224 | One alpha byte of 255 in either column makes the skin classic. |
| SkinTexture.Dispatch | src/skin/index.js:266-307 | It fails exactly for null/undefined (TypeError), for other non-string, non-object values ("Invalid texture value") and for 17-36 character non-URL strings (ReferenceError from the undeclared `image`). For strings: "http" strings are URLs, strings of 16 characters or fewer are looked up, longer ones are used as data, and a string never brings a cape. For objects: the skin and cape sources are the ones their priority orders pick; `hasCape` is true when any cape property is present; an explicit `slim` disables detection; a cape source is chosen only when a cape is expected. |
| SkinTexture.SkinSourcePriority | src/skin/index.js:282-295 | The skin source is the first truthy of url, data, username (looked up), uuid (crafatar URL) and mineskin; when none is truthy there is no source. |
| SkinTexture.CapeSourcePriority | src/skin/index.js:296-302 | The cape source is the first truthy of capeUrl, capeData and the mineskin cape URL; when none is truthy no cape is requested. |
| SkinTexture.EmptyUrlFallsThrough | src/skin/index.js:282-285 | An empty `url` is skipped and `data` is used. |
| SkinTexture.ExpectedCapeWithoutSource | src/skin/index.js:296-302 | `capeUrl: ""` sets `hasCape` but requests no cape image. |
| SkinTexture.LookupUrl | src/skin/index.js:287-290 | A failed lookup assigns nothing. A success assigns the crafatar URL built from the returned `id`, or from the name when `id` is missing or empty, with `?overlay` for an object descriptor. |
| SkinCube.Cube | src/skin/index.js:344-416 | It throws a TypeError exactly when the face table is missing or lacks a face. Otherwise it gives a mesh with the requested size and name whose 12 UV triangles are those of the table's faces (`CubeUvs`, about which the flip and triangle lemmas speak). The mesh is double-sided exactly when transparent. |
| SkinCube.FlipYInPlace | src/skin/index.js:385-391 | The in-place swap turns [c0,c1,c2,c3] into [c2,c3,c0,c1]. |
| SkinCube.FlipXInPlace | src/skin/index.js:392-398 | The in-place swap turns [c0,c1,c2,c3] into [c3,c2,c1,c0]. |
| SkinCube.FillFaceCorners | src/skin/index.js:366-398 | A face's corner array equals its normalised corners after `flipY` and then `flipX`. |
| SkinCube.CreateCube | src/skin/index.js:344-416 | The two loops produce exactly `Cube`, including the TypeError when a face is missing. |
| SkinCube.WriteTriangles | src/skin/index.js:401-406 | The second loop writes triangles 2i and 2i+1 of face i, giving the cube's UV list. |
| SkinCube.FlipsAreInvolutions | src/skin/index.js:384-398 | Each flip undoes itself. |
| SkinCube.FlipsCommute | src/skin/index.js:384-398 | The flips commute, and Y then X gives [c1,c0,c3,c2]. |
| SkinCube.FlipXIsNotARotation | src/skin/index.js:392-398 | For distinct corners, `flipX` differs from both one-step rotations. |
| SkinCube.FlipYPermutes | src/skin/index.js:385-391 | `flipY` keeps the multiset of corners. |
| SkinCube.FlipXPermutes | src/skin/index.js:392-398 | `flipX` keeps the multiset of corners. |
| SkinCube.FlipsKeepCorners | src/skin/index.js:381-398 | A face's flipped corners are a permutation of its unflipped corners. |
| SkinCube.UnflippedCornersRecoverRectangle | src/skin/index.js:366-378 | Scaled back by the atlas size, the unflipped corners are (x,y+h), (x,y), (x+w,y) and (x+w,y+h) of the pixel rectangle. |
| SkinCube.OverridesNeedSlimAndTruthy | src/skin/index.js:368-370 | `sx`/`sw` have no effect on a cube that is not slim, nor when they are absent or 0. |
| SkinCube.CubeTrianglesPerFace | src/skin/index.js:401-406 | Face i of right, left, top, bottom, front, back gives triangle 2i = [c0,c1,c3] and triangle 2i+1 = [c1,c2,c3]. |
| SkinCube.UnflippedTriangles | src/skin/index.js:401-406 | Without flips, the two triangles share the diagonal from top-left to bottom-right and cover all four corners. |
| SkinModel.Overlay | src/skin/index.js:434-444 | A built overlay list has one cuboid when v >= 1 and none otherwise. |
| SkinModel.CapeGroup | src/skin/index.js:576-594 | A built cape list has one group exactly when a cape texture is given. |
| SkinModel.BuildPartGroup | src/skin/index.js:421-444 | The group creation, translations and adds of one part build exactly `PartGroup`. |
| SkinModel.BuildCapeGroup | src/skin/index.js:576-594 | The cape statements build exactly the cape group, or throw its error. |
| SkinModel.ModelAssembles | src/skin/index.js:568-596 | A built model is a group at the origin holding the six part groups and then the cape group. |
| SkinModel.ModelThrowsWithCape | src/skin/index.js:583-587 | A cape cuboid that throws makes the whole model throw the same exception. |
| SkinModel.BuildPart | src/skin/index.js:421-566 | The statements for part i build exactly `Part(i)`. |
| SkinModel.BuildBodyGroups | src/skin/index.js:421-566 | Building the six parts in order gives their groups, or the first part's exception. |
| SkinModel.GroupAll | src/skin/index.js:568-574 | The player group is at the origin and holds the given groups in order. |
| SkinModel.CreatePlayerModel | src/skin/index.js:418-597 | The imperative construction equals the specified model, including its exceptions. |
| SkinModel.ImagesLoaded | src/skin/index.js:65-175 | `imagesLoaded` builds the model with the version detected from the skin height. |
| SkinModel.PartGroupBuilds | src/skin/index.js:426-444 | A part builds exactly when its base table is complete and, for v >= 1, its overlay table is too. Otherwise it throws a TypeError. |
| SkinModel.PartGroupShape | src/skin/index.js:421-444 | A built part group sits at the joint, holds the opaque base and (for v >= 1) the transparent overlay, each with its spec's size and textured from its spec's table, and every mesh rests at the nominal centre. |
| SkinModel.PlayerModelRoot | src/skin/index.js:568-594 | The root is at the origin and has 6 children, or 7 when the cape group comes last. |
| SkinModel.PlayerModelPart | src/skin/index.js:568-574 | Child i is part i's group, in the order head, body, left arm, right arm, left leg, right leg. |
| SkinModel.SpecsOfPart | src/skin/index.js:426-566 | Each base cuboid is named after its part. The head is 8x8x8, the body 8x12x4, arms 3 wide when slim and 4 otherwise by 12x4, legs 4x12x4. Each overlay is 0.504 larger than its base on every axis. |
| SkinModel.PartShapeHolds | src/skin/index.js:421-566 | Every built part has its name and base size (head 8x8x8, body 8x12x4, arms 3x12x4 slim or 4x12x4, legs 4x12x4), an opaque front-side base textured from the part's table for the version, and, from version 1, a transparent double-sided overlay 0.504 larger, textured from the overlay table. It rests at head 28, body and arms 18 (x = ∓5.5 slim, ∓6 otherwise) and legs 6. |
| SkinModel.PlayerModelShape | src/skin/index.js:421-574 | Every body part of a built model has that shape: name, base size, face tables, overlay, transparency and resting place. |
| SkinModel.CapeGroupShape | src/skin/index.js:576-594 | The cape is an opaque 8x16x1 cuboid turned 180°. It rests at (0,16,-2.5), uses the OptiFine table exactly when asked, and never uses slim overrides. |
| SkinModel.PlayerModelCape | src/skin/index.js:576-594 | Given a cape texture, a built model ends with that cape group. |
| SkinModel.PartBuilds | src/skin/index.js:421-566 | With complete tables, every part builds for versions 0 and 1. |
| SkinModel.BodyGroupsBuild | src/skin/index.js:421-566 | With complete tables, all six parts build for versions 0 and 1. |
| SkinModel.MissingHeadThrows | src/skin/index.js:426-431 | When there is no head table for the version, the model throws a TypeError. |
| SkinModel.PlayerModelBuildsIff | src/skin/index.js:418-597 | With complete tables, the model builds exactly for versions 0 and 1. |
| SkinModel.UnknownVersionThrows | src/skin/index.js:426-431 | A skin that is neither 32 nor 64 high (version -1) makes `createPlayerModel` throw a TypeError. |
| SkinModel.AtlasHeightDecidesOverlays | src/skin/index.js:434-566 | A 32-high atlas gives each part only its base; a 64-high atlas gives base and overlay. |
| SkinLoader.Rendered | src/skin/index.js:183-264 | After `render`, nothing has loaded or started. The cape image is kept exactly when a cape is expected, or for a null descriptor. A throwing descriptor requests nothing. |
| SkinLoader.Requested | src/skin/index.js:266-302 | The skin `src` is set for a direct source and a lookup is pending for a name. The cape `src` is the chosen cape source. |
| SkinLoader.LookedUp | src/skin/index.js:287-290 | The callback throws exactly when a successful lookup finds the skin image nulled. |
| SkinLoader.SkinRender.constructor | src/skin/index.js:34-53 | A new renderer has no images, no sources and no runs of `imagesLoaded`. |
| SkinLoader.SkinRender.Render | src/skin/index.js:183-307 | `render` leaves the state `Rendered(t)` and fails exactly when the dispatch does. |
| SkinLoader.SkinRender.ImagesLoaded | src/skin/index.js:60-61 | The start flag is set and one run is recorded with the current slim and OptiFine flags. |
| SkinLoader.SkinRender.OnSkinLoad | src/skin/index.js:195-233 | The skin `onload` performs exactly one `SkinLoad` step. |
| SkinLoader.SkinRender.OnSkinError | src/skin/index.js:234-237 | The skin `onerror` changes nothing. |
| SkinLoader.SkinRender.OnCapeLoad | src/skin/index.js:241-250 | The cape `onload` performs exactly one `CapeLoad` step. |
| SkinLoader.SkinRender.OnCapeError | src/skin/index.js:251-260 | The cape `onerror` performs exactly one `CapeError` step. |
| SkinLoader.SkinRender.OnLookupDone | src/skin/index.js:287-290 | The lookup callback performs `LookedUp`. |
| SkinLoader.SkinRender.ResetImages | src/skin/index.js:314-316 | `reset` nulls both image fields. |
| SkinLoader.RenderedValid | src/skin/index.js:187-264 | The state after `render` satisfies the barrier invariant. |
| SkinLoader.StepPreservesValid | src/skin/index.js:195-260 | Every callback keeps the invariant: one run exactly when the skin has loaded and the cape has settled or was not expected, none otherwise. |
| SkinLoader.RunPreservesValid | src/skin/index.js:195-260 | Any interleaving of callbacks keeps the invariant. |
| SkinLoader.ImagesLoadedAtMostOnce | src/skin/index.js:58-61 | After any events, `imagesLoaded` has run at most once, and it has run exactly when the skin loaded and the cape settled or was not expected. |
| SkinLoader.StartedStaysOnce | src/skin/index.js:231 | Once started, no later event runs `imagesLoaded` again. |
| SkinLoader.NoSkinLoadNoStart | src/skin/index.js:230-237 | Without a skin load, in particular with only skin errors, the model never starts. |
| SkinLoader.UnsettledCapeNoStart | src/skin/index.js:230-232 | While an expected cape has neither loaded nor failed, the model never starts. |
| SkinLoader.EmptyCapeUrlNeverRenders | src/skin/index.js:296-302 | With `capeUrl: ""`, no sequence of events ever builds the model. |
| SkinLoader.LoadAfterResetIgnored | src/skin/index.js:195-250 | After `reset`, the skin and cape load handlers change nothing. |
| SkinLoader.CapeErrorAfterResetStarts | src/skin/index.js:251-260 | After `reset`, a cape error still starts the model, without the cape. |
| SkinLoader.CapeErrorOrderMatters | src/skin/index.js:230-260 | When the skin loads and then the cape fails, the model is built without a cape. When the cape fails first, it is built with the failed cape texture. |
| SkinLoader.BothLoadOrders | src/skin/index.js:230-250 | Whichever image loads first, the model is built once, with the cape. |
| SkinLoader.SlimFlag | src/skin/index.js:201-228 | A given slim flag is kept. A missing one becomes the outcome of the column scan. |
| SkinLoader.LookupAfterResetThrows | src/skin/index.js:287-290 | A lookup answered after `reset` throws a TypeError. |
| Js.Div | src/renderBase.js:148 | A division is finite exactly for a nonzero divisor, and then the quotient times the divisor is the dividend. |
| RenderOptions.MergeOptions | src/renderBase.js:84 | The merged keys are the union of all three sources. Each key takes the caller's value, else the renderer's default, else the base default. |
| RenderOptions.NestedOptionsReplaceWhole | src/renderBase.js:84 | A nested `camera` option replaces the default camera whole, which loses its `target`. |
| RenderOptions.Prop | src/renderBase.js:145-149 | A property read throws exactly on `undefined` or `null`. |
| RenderOptions.Elem | src/renderBase.js:219 | An element read throws exactly on `undefined` or `null`. |
| FrameLimiter.Setup | src/renderBase.js:233-240 | The limiter is active exactly when `frameRateLimit > 0`, with delta 0 and interval `1 / frameRateLimit`. |
| FrameLimiter.FMod | src/renderBase.js:264-266 | The dividend is a whole number of intervals plus the remainder, which lies in [0, interval); between one and two intervals it is the dividend minus one interval. |
| FrameLimiter.Step | src/renderBase.js:253-266 | A frame renders exactly when there is no limiter or the accumulated delta exceeds the interval strictly. A skipped frame keeps the sum. A rendered frame keeps the remainder: the sum is one or more whole intervals plus the new delta, and exactly one interval plus it when the sum is below two intervals. |
| FrameLimiter.StepSettles | src/renderBase.js:253-266 | With non-negative deltas, the accumulated delta stays between 0 and one interval. |
| FrameLimiter.Run | src/renderBase.js:244-272 | Running frames keeps the limiter's kind and interval. |
| FrameLimiter.UnlimitedRendersAll | src/renderBase.js:253-262 | Without a limiter, every frame renders. |
| FrameLimiter.SkippedFramesAccumulate | src/renderBase.js:253-256 | Frames that stay within the interval render nothing and add up their deltas. |
| FrameLimiter.RateLimited | src/renderBase.js:253-266 | Rendered frames times the interval, plus the time still accumulated, never exceed the starting delta plus the elapsed time. |
| FrameLimiter.RateKept | src/renderBase.js:253-266 | When every clock delta is below the interval, the rendered frames times the interval plus the time still accumulated equal the starting delta plus the elapsed time exactly: the remainder is carried over and the long-run rate is kept. |
| Viewport.OrthoBounds | src/renderBase.js:188-192 | The orthographic planes are centred on 0 and span exactly w by h. |
| Viewport.ComposerSide | src/skin/index.js:140-141 | The composer side is never 0, and it is at least 1 for a non-negative size. |
| Viewport.ComposerSideFits | src/skin/index.js:140-141 | For a size of at least one pixel ratio, the side is the largest whole number of pixel ratios that fit. |
| Viewport.TinySideGetsOnePixel | src/skin/index.js:140-141 | A size below one pixel ratio gets 1 (`|| 1`). |
| Viewport.Viewport.constructor | src/renderBase.js:156-167 | The renderer and composer start at the canvas size with the given camera. |
| Viewport.Viewport.Resize | src/renderBase.js:187-200 | An orthographic camera gets the new centred bounds and a perspective camera gets the aspect w/h. Renderer and composer both take (w,h). |
| Viewport.Viewport.ResizeSkin | src/skin/index.js:132-144 | The camera aspect and renderer size follow (w,h). With post-processing, the composer takes each side divided by the pixel ratio, floored, with 0 replaced by 1; otherwise it is unchanged. |
| SceneGraph.Light | src/renderBase.js:119-123 | The light is a childless soft white (0xF0F0F0) ambient light. |
| SceneGraph.OwnDisposals | src/renderBase.js:377-379 | A node disposes exactly its own disposable geometry, single material and texture. |
| SceneGraph.DisposesExactlyDisposable | src/renderBase.js:375-392 | Deep disposal reaches exactly the disposable single resources of the whole tree. |
| SceneGraph.DisposesExactlyDisposableEach | src/renderBase.js:383-386 | The same holds for a list of trees disposed one after another. |
| SceneGraph.DeepDisposeMesh | src/renderBase.js:375-392 | `null` is a no-op. Otherwise the disposals come in order: own resources, then each child's. With `removeChildren` the node is left stripped. |
| SceneGraph.DisposeNode | src/renderBase.js:377-391 | One node's disposal calls and the node it leaves behind. |
| SceneGraph.DisposeOwn | src/renderBase.js:377-379 | Geometry, then material, then texture, each only if it can be disposed. |
| SceneGraph.DisposeChildren | src/renderBase.js:383-386 | The children are disposed first to last. |
| SceneGraph.RemoveChildren | src/renderBase.js:388-390 | The backward removal leaves no children. |
| SceneGraph.Present | src/renderBase.js:426 | The filter keeps exactly the present cubes. |
| SceneGraph.PresentAppend | src/renderBase.js:426 | Filtering a concatenation gives the filtered parts in the same order. |
| SceneGraph.PresentSingle | src/renderBase.js:426 | One slot is kept exactly when it holds a cube. |
| SceneGraph.AsWrittenOffset | src/renderBase.js:431 | The offset is finite exactly when the material has a length. |
| SceneGraph.MergeOfCube | src/renderBase.js:430-432 | Cube i is merged with its geometry at offset `i * max(length, 1)`. |
| SceneGraph.MergeCubeMeshes | src/renderBase.js:425-447 | It succeeds exactly when every present cube has a material. The cubes before a failure are merged and disposed. On success the merges are in order and the materials are the arrays concatenated in input order. |
| SceneGraph.PushAll | src/renderBase.js:433-435 | The inner loop appends the cube's materials in order. |
| SceneGraph.CumulativeOffsetsIndexOwnMaterials | src/renderBase.js:430-435 | With cumulative offsets, local material k of cube i is entry offset+k of the combined array. |
| SceneGraph.EqualCountsAgree | src/renderBase.js:431 | When every cube has the same m >= 1 materials, the written offsets equal the cumulative ones. |
| SceneGraph.UnequalCountsMisindex | src/renderBase.js:431-432 | With two cubes of 2 and 1 materials, the written offset points the second cube at the first cube's second material. |
| RenderBase.InitialCamera | src/renderBase.js:145-149 | The camera is orthographic exactly when `camera.type` is "orthographic". |
| RenderBase.InitialChildren | src/renderBase.js:203-210 | The scene holds the axes helper if `showAxes`, the grid if `showGrid`, then the light. |
| RenderBase.LimiterFor | src/renderBase.js:233-240 | A limiter exists exactly when the option compares greater than 0, and it starts settled. |
| RenderBase.Animated | src/renderBase.js:244-266 | The next frame is always requested. A paused frame changes nothing else, and at most one frame renders. |
| RenderBase.PausedFrameKeepsState | src/renderBase.js:251 | With `pauseHidden`, a frame that is not known to be on screen leaves the limiter and the frame count alone. This includes the first frame, when `onScreen` is unset. |
| RenderBase.UnpausedUnlimitedFrameRenders | src/renderBase.js:251-262 | Without pause and without a limiter, every frame renders. |
| RenderBase.VisibleFrameFollowsLimiter | src/renderBase.js:251-256 | A visible frame renders exactly when the limiter lets it. |
| RenderBase.ClearSplitsChildren | src/renderBase.js:320-336 | A child survives exactly when it is not removed, and is disposed exactly when removed. Survivors plus removed make up all the children. |
| RenderBase.SelfTypeOnlyRemovesOwn | src/renderBase.js:329-333 | With only `onlySelfType`, exactly the children not tagged with this renderer's type survive. |
| RenderBase.Render.constructor | src/renderBase.js:74-87 | The options are the three-way merge; no scene, renderer, observer, limiter or frame exists yet. |
| RenderBase.Render.InitScene | src/renderBase.js:131-300 | It throws right after creating the scene when `camera`/`canvas` are unreadable, and after the view, helpers and light when `controls`/`camera.target` are unreadable. Otherwise camera, renderer and composer are sized to the canvas options or the window, the canvas is attached, the listener set with `autoResize`, the limiter set up, the first frame run unless `doNotAnimate`, and `onScreen` set to the opposite of `pauseHidden`. |
| RenderBase.Render.BuildView | src/renderBase.js:156-186 | Camera, renderer and composer are sized to the canvas. The canvas joins the host, the context is live, and the resize listener is added with `autoResize`. |
| RenderBase.Render.StartLoop | src/renderBase.js:233-299 | The limiter, the first frame unless `doNotAnimate`, then `onScreen` and the observer under `pauseHidden`. |
| RenderBase.Render.Animate | src/renderBase.js:244-272 | One frame moves the state to `Animated`. |
| RenderBase.Render.OnEnter | src/renderBase.js:287-292 | `onScreen` becomes true, and with `forceContext` the context is restored. |
| RenderBase.Render.OnLeave | src/renderBase.js:293-298 | `onScreen` becomes false, and with `forceContext` the context is lost. |
| RenderBase.Render.Resize | src/renderBase.js:187-200 | It throws before `initScene`; otherwise it resizes as `Viewport.Resize`. |
| RenderBase.Render.AddToScene | src/renderBase.js:306-312 | With a scene and an object, the object is appended, tagged with this renderer's type. Otherwise nothing changes. |
| RenderBase.Render.InitLight | src/renderBase.js:119-123 | One light is appended to the scene. |
| RenderBase.Render.ClearScene | src/renderBase.js:319-344 | It throws without a scene. Filtered, the scene keeps the survivors and the removed children are deep-disposed, last first. Unfiltered, the scene becomes exactly one light and nothing is disposed. |
| RenderBase.Render.ClearFiltered | src/renderBase.js:320-336 | The backward loop leaves the survivors in order and disposes the removed children from last to first. |
| RenderBase.Render.RemoveAll | src/renderBase.js:339-341 | Removing child 0 while any remain leaves none. |
| RenderBase.Render.Dispose | src/renderBase.js:346-370 | The frame is cancelled and the observer destroyed. The scene becomes one light. It throws without a scene or a canvas. Otherwise the canvas is detached, the host emptied, the listener removed with `autoResize` and the context released. |
| RenderBase.Render.RemoveCanvas | src/renderBase.js:354 | An attached canvas leaves the host element. |
| RenderBase.Render.EmptyHost | src/renderBase.js:355-358 | The host element ends with no children. |

## Findings

| source | as written | input that shows it | evidently intended | confidence | as-written member | corrected member |
|---|---|---|---|---|---|---|
| src/renderBase.js:431 | cube i is merged at material offset `i * max(material.length, 1)` | two cubes with 2 and 1 materials: the second cube's offset is 1, which is the first cube's second material | the offset of cube i is the number of materials of the cubes before it, so each face keeps its own material | low, not executed (the callers may only pass cubes with equal counts, where both agree) | SceneGraph.UnequalCountsMisindex | SceneGraph.CumulativeOffsetsIndexOwnMaterials |

`SceneGraph.MergeCubeMeshes` models the offsets as written. `SceneGraph.EqualCountsAgree` shows
that the written and the cumulative offsets agree whenever all cubes have the same number of
materials.

## Left out

- three.js internals are not modelled: geometry, `BoxGeometry`, materials, camera matrices,
  `updateProjectionMatrix`, WebGL, EffectComposer and the SSAA and copy passes. A mesh is a record
  of what the model observes.
- OrbitControls, Stats (`enableStats`), `camera.zoom`, the camera position and `lookAt` are not
  modelled. The controls and target reads are kept only for the exceptions they can throw.
- The OnScreen observer's intersection logic is left out. Visibility arrives as explicit `enter` /
  `leave` calls, and page visibility as a `hidden` parameter.
- `requestAnimationFrame`, `THREE.Clock` and the window size are parameters: a frame id, a clock
  delta, and `innerWidth` / `innerHeight`.
- `renderCb`, the `skinRender` DOM event and the composer's drawing are not modelled. A rendered
  frame only increments a counter.
- `getJSON` and the crafatar, skinrender and mineskin services are network I/O. A lookup's outcome
  is an input.
- Canvas drawing and `getImageData` are left out; the two alpha columns are inputs.
- Console logging, `toImage`, `trimCanvas`, `buildAxes` / `buildAxis`, `toRadians`,
  `mergeMeshes__`, `getModelByName`, `toggleSkinPart` and the `texturePositions` data are left out.
  The texture positions are a table parameter.
- The skin renderer's own scene setup inside `imagesLoaded` is not modelled: renderer, controls,
  resize listener and animation loop. Only its `_resize` rule and the model building are covered.
- `reset` also cancels the animation frame and removes the canvas; only the nulling of the two
  image fields is modelled.
- Callbacks left over from an earlier `render` call share that call's variables. The model follows
  only the latest call.
- `createPlayerModel` repeats one block of statements six times with different constants.
  `SkinModel.BuildBodyGroups` runs that block in a loop over the six parts, so the order and the
  first exception are the same.
- `deepDisposeMesh` and `clearScene` are modelled on values. A stripped child is not written back
  into a parent that still holds it, and aliasing between trees is not modelled.
- `filterFn` is a pure function of the child; side effects inside it are not modelled.
- Option values other than numbers, booleans, `undefined` and `null` are simplified:
  - a non-numeric canvas size uses the window size;
  - a string `frameRateLimit` never enables the limiter;
  - a string or array option source contributes no properties to the merge.
- `renderType` is a constructor parameter: the base class tags `"_Base_"` and each subclass its own.
- Texture sizes are positive (`SkinCube.Loaded`). A zero-sized image would give infinite UVs,
  which are not modelled.
- A lookup whose JSON body is `null` makes `data.id` throw a `TypeError`; `SkinTexture.LookupResult`
  only has a failed transport and a body object, so that exception is not modelled.
- `texture.length` counts UTF-16 code units; the model counts characters of a `string`, which
  differ for characters outside the Basic Multilingual Plane.
- Descriptor properties are modelled as absent or strings. A `null` cape property (`capeUrl: null`)
  also sets `hasCape` while choosing no cape source, so the renderer waits as with `capeUrl: ""`; a
  numeric `mineskin` id goes through string concatenation. Neither is represented.
- `slim` of an object descriptor is modelled as absent, `true` or `false`. A `null` or non-boolean
  value also disables detection and is then used for its truthiness; the model does not represent it.
- SkinLoader.SkinRender.OnSkinLoad: slim detection runs only on columns of 48 bytes each, the size
  `getImageData` returns for 1x12 pixels.
- FrameLimiter.FMod: requires a non-negative dividend, so JavaScript's `%` on a negative delta
  (a clock going backwards) is not modelled.
- FrameLimiter.RateLimited: proved only for non-negative clock deltas and a settled start.
- NaN is not modelled as a number. A single material's `length` is `undefined`, so the offset is
  NaN; `SceneGraph.AsWrittenOffset` represents it as `NonFinite`.
