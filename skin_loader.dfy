/** The load coordination of the skin renderer's `render`: the skin image and
    the optional cape image load independently, and the model is built once,
    by `imagesLoaded`, when the skin has loaded and the cape has settled. */
module SkinLoader {
  import opened Js
  import SkinTexture
  import EventLoop

  /** One run of `imagesLoaded`: whether a cape texture was passed to it, and
      the slim and OptiFine flags the player model is built with. */
  datatype ImagesLoadedCall = ImagesLoadedCall(withCape: bool, slim: bool, optifine: bool)

  /** What `render` derived from the descriptor and never changes afterwards:
      whether a cape is expected, whether the slim flag is to be detected
      (none was given), and the OptiFine flag. */
  datatype Setup = Setup(hasCape: bool, detectSlim: bool, optifine: bool)

  /** The sources requested so far: the skin image's and the cape image's
      `src`, and a username lookup still waiting for its answer. */
  datatype Sources = Sources(skin: Option<string>, cape: Option<string>, lookup: Option<SkinTexture.SkinSource>)

  /** The state one `render` call leaves behind: the renderer's two image
      fields (`true` while they hold an image, `false` once `reset` nulls
      them), what was derived from the descriptor, the requested sources,
      the flags the callbacks share, and the runs of `imagesLoaded`. */
  datatype Loader = Loader(
    skinImage: bool, capeImage: bool,
    setup: Setup, sources: Sources,
    slim: bool, skinLoaded: bool, capeLoaded: bool, renderStarted: bool,
    calls: seq<ImagesLoadedCall>)

  /** What may happen once `render` has returned: a load or error event of
      either image (a skin load carries the two detection columns), the
      answer to the username lookup, or a call of `reset`. */
  datatype Event =
    | SkinLoad(col1: seq<int>, col2: seq<int>)
    | SkinError
    | CapeLoad
    | CapeError
    | LookupDone(res: SkinTexture.LookupResult)
    | Reset

  const NothingRequested: Sources := Sources(None, None, None)

  /** A renderer on which `render` has not been called. */
  const Fresh: Loader := Loader(false, false, Setup(false, false, false), NothingRequested,
                                false, false, false, false, [])

  /** The state `render(t)` sets up: a new skin image; a cape image only when
      a cape is expected; the sources the descriptor names. A descriptor
      that throws leaves both image fields set (a `null` or `undefined`
      descriptor fails before the cape image is dropped) and requests
      nothing. */
  function Rendered(t: SkinTexture.Descriptor): (s: Loader)
    ensures s.skinImage && !s.skinLoaded && !s.capeLoaded && !s.renderStarted && s.calls == []
    ensures s.capeImage <==> t.NullTexture? || SkinTexture.HasCape(t)
    ensures SkinTexture.Dispatch(t).Err? ==> s.sources == NothingRequested
  {
    match SkinTexture.Dispatch(t)
    case Err(_) =>
      Loader(true, t.NullTexture?, Setup(false, false, false), NothingRequested, false, false, false, false, [])
    case Ok(plan) =>
      Loader(true, plan.hasCape, Setup(plan.hasCape, plan.detectSlim, plan.optifine), Requested(plan),
             plan.slim, false, false, false, [])
  }

  /** The sources a plan requests: the skin image's source, or a pending
      lookup; the cape image's source, if any. */
  function Requested(plan: SkinTexture.LoadPlan): (r: Sources)
    ensures r.skin.Some? <==> plan.skin.SkinSrc?
    ensures r.lookup.Some? <==> plan.skin.SkinLookup?
    ensures r.lookup.Some? ==> r.lookup.value == plan.skin
    ensures r.cape == plan.cape
  {
    Sources(if plan.skin.SkinSrc? then Some(plan.skin.src) else None,
            plan.cape,
            if plan.skin.SkinLookup? then Some(plan.skin) else None)
  }

  /** `imagesLoaded` starting: the flag is set first, then the model is built
      (whether or not building it throws). */
  function Start(s: Loader, withCape: bool): Loader
  {
    s.(renderStarted := true, calls := s.calls + [ImagesLoadedCall(withCape, s.slim, s.setup.optifine)])
  }

  /** The skin image's load handler: ignored once `reset` has run; otherwise
      it marks the skin loaded, detects the slim flag when none was given,
      and starts the model when the cape has settled or none is expected. */
  function SkinLoaded(s: Loader, col1: seq<int>, col2: seq<int>): Loader
  {
    if !s.skinImage then s
    else
      var detected := s.setup.detectSlim && |col1| == 48 && |col2| == 48 && SkinTexture.ColumnsClear(col1, col2);
      var s1 := s.(skinLoaded := true, slim := s.slim || detected);
      if (s1.capeLoaded || !s1.setup.hasCape) && !s1.renderStarted then Start(s1, s1.setup.hasCape) else s1
  }

  /** The cape image's load handler: ignored once `reset` has run (and never
      attached when no cape is expected). */
  function CapeLoaded(s: Loader): Loader
  {
    if !s.capeImage then s
    else
      var s1 := s.(capeLoaded := true);
      if s1.skinLoaded && !s1.renderStarted then Start(s1, true) else s1
  }

  /** The cape image's error handler, attached whenever a cape is expected.
      It has no `reset` guard, and it starts the model without the cape. */
  function CapeErrored(s: Loader): Loader
  {
    if !s.setup.hasCape then s
    else
      var s1 := s.(capeLoaded := true);
      if s1.skinLoaded && !s1.renderStarted then Start(s1, false) else s1
  }

  /** The username lookup's callback: a failed lookup requests nothing; a
      successful one assigns the skin image's source, which throws a
      `TypeError` once `reset` has nulled the image field. */
  function LookedUp(s: Loader, res: SkinTexture.LookupResult): (r: (Loader, Result<()>))
    requires s.sources.lookup.Some? && s.sources.lookup.value.SkinLookup?
    ensures r.1.Err? <==> res.LookupOk? && !s.skinImage
  {
    var pending := s.sources.lookup.value;
    var url := SkinTexture.LookupUrl(pending.name, pending.overlay, res);
    var s1 := s.(sources := s.sources.(lookup := None));
    if url.None? then (s1, Ok(()))
    else if !s.skinImage then (s1, Err(TypeError))
    else (s1.(sources := s1.sources.(skin := url)), Ok(()))
  }

  /** `reset`: both image fields become `null`. */
  function ResetImages(s: Loader): Loader
  {
    s.(skinImage := false, capeImage := false)
  }

  /** Whether the event can happen at all: an image fires load and error
      events only once its source has been assigned, and a lookup answers
      only when one is pending. */
  predicate CanHappen(s: Loader, e: Event)
  {
    match e
    case SkinLoad(_, _) => s.sources.skin.Some?
    case SkinError => s.sources.skin.Some?
    case CapeLoad => s.sources.cape.Some?
    case CapeError => s.sources.cape.Some?
    case LookupDone(_) => s.sources.lookup.Some? && s.sources.lookup.value.SkinLookup?
    case Reset => true
  }

  /** The state after an event (one that cannot happen changes nothing). */
  function Step(s: Loader, e: Event): Loader
  {
    if !CanHappen(s, e) then s
    else
      match e
      case SkinLoad(col1, col2) => SkinLoaded(s, col1, col2)
      case SkinError => s
      case CapeLoad => CapeLoaded(s)
      case CapeError => CapeErrored(s)
      case LookupDone(res) => LookedUp(s, res).0
      case Reset => ResetImages(s)
  }

  /** The state after a sequence of events. */
  function Run(s: Loader, es: seq<Event>): Loader
  {
    EventLoop.Run(s, es, Step)
  }

  /** What every reachable state keeps: `imagesLoaded` has run at most once,
      exactly when the flag says so, and exactly when the skin has loaded and
      the cape has settled or was never expected; the cape settles and is
      requested only when a cape is expected. */
  predicate Valid(s: Loader)
  {
    && |s.calls| == (if s.renderStarted then 1 else 0)
    && (s.renderStarted <==> s.skinLoaded && (s.capeLoaded || !s.setup.hasCape))
    && (s.capeLoaded ==> s.setup.hasCape)
    && (s.sources.cape.Some? ==> s.setup.hasCape)
  }

  // ---------------------------------------------------------------------------
  // The renderer object
  // ---------------------------------------------------------------------------

  /** The renderer's image fields, and the variables the callbacks of its
      latest `render` call share. */
  class SkinRender {
    var skinImage: bool
    var capeImage: bool
    var setup: Setup
    var sources: Sources
    var slim: bool
    var skinLoaded: bool
    var capeLoaded: bool
    var renderStarted: bool
    var calls: seq<ImagesLoadedCall>

    function State(): Loader
      reads this
    {
      Loader(skinImage, capeImage, setup, sources, slim, skinLoaded, capeLoaded, renderStarted, calls)
    }

    constructor()
      ensures State() == Fresh
    {
      skinImage, capeImage := false, false;
      setup, sources := Setup(false, false, false), NothingRequested;
      slim, skinLoaded, capeLoaded, renderStarted := false, false, false, false;
      calls := [];
    }

    /** `render(texture)`: create the images, reset the shared flags, then
      classify the descriptor and request the images it names. */
    method Render(t: SkinTexture.Descriptor) returns (r: Result<()>)
      modifies this
      ensures State() == Rendered(t)
      ensures r.Err? <==> SkinTexture.Dispatch(t).Err?
    {
      skinImage, capeImage := true, true;
      renderStarted, skinLoaded, capeLoaded, calls := false, false, false, [];
      sources := NothingRequested;
      var d := SkinTexture.Dispatch(t);
      if d.Err? {
        // `null` throws reading `capeUrl`, before the cape image is dropped
        setup, slim := Setup(false, false, false), false;
        if !t.NullTexture? {
          capeImage := false;
        }
        return Err(d.error);
      }
      var plan := d.value;
      setup := Setup(plan.hasCape, plan.detectSlim, plan.optifine);
      if !plan.hasCape {
        capeImage := false;
      }
      slim := plan.slim;
      sources := Requested(plan);
      r := Ok(());
    }

    /** `imagesLoaded`: set the flag, then build the model. */
    method ImagesLoaded(withCape: bool)
      modifies this
      ensures State() == Start(old(State()), withCape)
    {
      renderStarted := true;
      calls := calls + [ImagesLoadedCall(withCape, slim, setup.optifine)];
    }

    /** The skin image's `onload`. */
    method OnSkinLoad(col1: seq<int>, col2: seq<int>)
      requires sources.skin.Some?
      modifies this
      ensures State() == Step(old(State()), SkinLoad(col1, col2))
    {
      if !skinImage {
        return;
      }
      skinLoaded := true;
      if setup.detectSlim && |col1| == 48 && |col2| == 48 {
        var allTransparent := SkinTexture.DetectSlim(col1, col2);
        if allTransparent {
          slim := true;
        }
      }
      if skinLoaded && (capeLoaded || !setup.hasCape) {
        if !renderStarted {
          ImagesLoaded(setup.hasCape);
        }
      }
    }

    /** The skin image's `onerror` only logs. */
    method OnSkinError()
      requires sources.skin.Some?
      ensures State() == Step(State(), SkinError)
    {
    }

    /** The cape image's `onload`. */
    method OnCapeLoad()
      requires sources.cape.Some?
      modifies this
      ensures State() == Step(old(State()), CapeLoad)
    {
      if !capeImage {
        return;
      }
      capeLoaded := true;
      if capeLoaded && skinLoaded {
        if !renderStarted {
          ImagesLoaded(true);
        }
      }
    }

    /** The cape image's `onerror`: carry on without the cape. */
    method OnCapeError()
      requires sources.cape.Some?
      modifies this
      ensures State() == Step(old(State()), CapeError)
    {
      if !setup.hasCape {
        // the handler is only attached when a cape is expected
        return;
      }
      capeLoaded := true;
      if skinLoaded {
        if !renderStarted {
          ImagesLoaded(false);
        }
      }
    }

    /** The username lookup's callback. */
    method OnLookupDone(res: SkinTexture.LookupResult) returns (r: Result<()>)
      requires sources.lookup.Some? && sources.lookup.value.SkinLookup?
      modifies this
      ensures (State(), r) == LookedUp(old(State()), res)
    {
      var pending := sources.lookup.value;
      var url := SkinTexture.LookupUrl(pending.name, pending.overlay, res);
      sources := sources.(lookup := None);
      if url.None? {
        return Ok(());
      }
      if !skinImage {
        return Err(TypeError);
      }
      sources := sources.(skin := url);
      r := Ok(());
    }

    /** `reset`: drop both images, so that pending load handlers find
      nothing to do. */
    method ResetImages()
      modifies this
      ensures State() == Step(old(State()), Reset)
    {
      skinImage := false;
      capeImage := false;
    }
  }

  // ---------------------------------------------------------------------------
  // Properties of the load barrier
  // ---------------------------------------------------------------------------

  /** A fresh `render` is valid, and every event keeps validity. */
  lemma RenderedValid(t: SkinTexture.Descriptor)
    ensures Valid(Rendered(t))
  {
  }

  lemma StepPreservesValid(s: Loader, e: Event)
    requires Valid(s)
    ensures Valid(Step(s, e))
  {
  }

  lemma RunPreservesValid(s: Loader, es: seq<Event>)
    requires Valid(s)
    ensures Valid(Run(s, es))
  {
    forall x, e | Valid(x)
      ensures Valid(Step(x, e))
    {
      StepPreservesValid(x, e);
    }
    EventLoop.RunKeeps(s, es, Step, Valid, (e: Event) => true);
  }

  /** However the events interleave, `imagesLoaded` runs at most once after
      `render`; it has run exactly when the skin has loaded and the cape has
      settled or is not expected, so neither a premature nor a missed start
      is reachable. */
  lemma ImagesLoadedAtMostOnce(t: SkinTexture.Descriptor, es: seq<Event>)
    ensures var s := Run(Rendered(t), es);
      && |s.calls| <= 1
      && (|s.calls| == 1 <==> s.skinLoaded && (s.capeLoaded || !s.setup.hasCape))
  {
    RenderedValid(t);
    RunPreservesValid(Rendered(t), es);
  }

  /** Once started, nothing starts the model again. */
  lemma StartedStaysOnce(s: Loader, es: seq<Event>)
    requires s.renderStarted
    ensures Run(s, es).renderStarted && Run(s, es).calls == s.calls
  {
    var inv := (x: Loader) => x.renderStarted && x.calls == s.calls;
    forall x, e | inv(x)
      ensures inv(Step(x, e))
    {
    }
    EventLoop.RunKeeps(s, es, Step, inv, (e: Event) => true);
  }

  /** Without a skin load event the model never starts: in particular a
      skin image error never starts it. */
  lemma NoSkinLoadNoStart(s: Loader, es: seq<Event>)
    requires !s.skinLoaded && !s.renderStarted
    requires forall k :: 0 <= k < |es| ==> !es[k].SkinLoad?
    ensures !Run(s, es).renderStarted && Run(s, es).calls == s.calls
  {
    var inv := (x: Loader) => !x.skinLoaded && !x.renderStarted && x.calls == s.calls;
    var allowed := (e: Event) => !e.SkinLoad?;
    forall x, e | inv(x) && allowed(e)
      ensures inv(Step(x, e))
    {
    }
    EventLoop.RunKeeps(s, es, Step, inv, allowed);
  }

  /** While an expected cape has neither loaded nor failed, the model never
      starts. */
  lemma UnsettledCapeNoStart(s: Loader, es: seq<Event>)
    requires s.setup.hasCape && !s.capeLoaded && !s.renderStarted
    requires forall k :: 0 <= k < |es| ==> !es[k].CapeLoad? && !es[k].CapeError?
    ensures !Run(s, es).renderStarted && Run(s, es).calls == s.calls
  {
    var inv := (x: Loader) => x.setup.hasCape && !x.capeLoaded && !x.renderStarted && x.calls == s.calls;
    var allowed := (e: Event) => !e.CapeLoad? && !e.CapeError?;
    forall x, e | inv(x) && allowed(e)
      ensures inv(Step(x, e))
    {
    }
    EventLoop.RunKeeps(s, es, Step, inv, allowed);
  }

  /** A cape property that is present but requests nothing (`capeUrl: ""`)
      makes the renderer wait for a cape that never settles: whatever
      happens, the model is never built. */
  lemma EmptyCapeUrlNeverRenders(skinUrl: string, es: seq<Event>)
    requires skinUrl != ""
    ensures var t := SkinTexture.ObjectTexture(SkinTexture.TextureObject(
              Some(skinUrl), None, None, None, None, Some(""), None, None, false));
      Run(Rendered(t), es).calls == []
  {
    var t := SkinTexture.ObjectTexture(SkinTexture.TextureObject(
               Some(skinUrl), None, None, None, None, Some(""), None, None, false));
    SkinTexture.ExpectedCapeWithoutSource(skinUrl);
    var inv := (x: Loader) => x.setup.hasCape && x.sources.cape.None? && !x.capeLoaded && !x.renderStarted && x.calls == [];
    forall x, e | inv(x)
      ensures inv(Step(x, e))
    {
    }
    EventLoop.RunKeeps(Rendered(t), es, Step, inv, (e: Event) => true);
  }

  /** After `reset`, the skin and cape load handlers do nothing. */
  lemma LoadAfterResetIgnored(s: Loader, col1: seq<int>, col2: seq<int>)
    requires !s.skinImage && !s.capeImage
    ensures Step(s, SkinLoad(col1, col2)) == s
    ensures Step(s, CapeLoad) == s
  {
  }

  /** The cape's error handler has no `reset` guard: after `reset`, a cape
      error still starts the model when the skin had loaded. */
  lemma CapeErrorAfterResetStarts(s: Loader)
    requires Valid(s) && s.skinLoaded && !s.renderStarted && s.sources.cape.Some?
    ensures var s1 := Step(ResetImages(s), CapeError);
      s1.renderStarted && s1.calls == [ImagesLoadedCall(false, s.slim, s.setup.optifine)]
  {
  }

  /** The cape's error handler passes no cape when the skin is already
      loaded; but when the cape fails first, the skin's load handler passes
      the failed cape texture along. */
  lemma CapeErrorOrderMatters(t: SkinTexture.Descriptor, col1: seq<int>, col2: seq<int>)
    requires Rendered(t).sources.skin.Some? && Rendered(t).sources.cape.Some?
    ensures Run(Rendered(t), [SkinLoad(col1, col2), CapeError]).calls
         == [ImagesLoadedCall(false, Step(Rendered(t), SkinLoad(col1, col2)).slim, Rendered(t).setup.optifine)]
    ensures Run(Rendered(t), [CapeError, SkinLoad(col1, col2)]).calls
         == [ImagesLoadedCall(true, Step(Rendered(t), SkinLoad(col1, col2)).slim, Rendered(t).setup.optifine)]
  {
    var s := Rendered(t);
    RenderedValid(t);
    EventLoop.RunTwo(s, SkinLoad(col1, col2), CapeError, Step);
    EventLoop.RunTwo(s, CapeError, SkinLoad(col1, col2), Step);
  }

  /** The model starts once with the cape, whichever image loads first. */
  lemma BothLoadOrders(t: SkinTexture.Descriptor, col1: seq<int>, col2: seq<int>)
    requires Rendered(t).sources.skin.Some? && Rendered(t).sources.cape.Some?
    ensures Run(Rendered(t), [SkinLoad(col1, col2), CapeLoad]).calls
         == [ImagesLoadedCall(true, Step(Rendered(t), SkinLoad(col1, col2)).slim, Rendered(t).setup.optifine)]
    ensures Run(Rendered(t), [CapeLoad, SkinLoad(col1, col2)]).calls
         == [ImagesLoadedCall(true, Step(Rendered(t), SkinLoad(col1, col2)).slim, Rendered(t).setup.optifine)]
  {
    var s := Rendered(t);
    RenderedValid(t);
    EventLoop.RunTwo(s, SkinLoad(col1, col2), CapeLoad, Step);
    EventLoop.RunTwo(s, CapeLoad, SkinLoad(col1, col2), Step);
  }

  /** A given slim flag is used as given; a missing one is detected from the
      two columns when the skin loads. */
  lemma SlimFlag(t: SkinTexture.Descriptor, col1: seq<int>, col2: seq<int>)
    requires SkinTexture.Dispatch(t).Ok? && Rendered(t).sources.skin.Some?
    requires |col1| == 48 && |col2| == 48
    ensures var s := Step(Rendered(t), SkinLoad(col1, col2));
      s.slim == (if SkinTexture.Dispatch(t).value.detectSlim then SkinTexture.ColumnsClear(col1, col2)
                 else SkinTexture.Dispatch(t).value.slim)
  {
  }

  /** A lookup answered after `reset` throws. */
  lemma LookupAfterResetThrows(s: Loader, id: Option<string>)
    requires s.sources.lookup.Some? && s.sources.lookup.value.SkinLookup? && !s.skinImage
    ensures LookedUp(s, SkinTexture.LookupOk(id)).1 == Err(TypeError)
  {
  }
}
