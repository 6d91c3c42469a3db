/** How the skin renderer reads a texture descriptor and a loaded skin image:
    the atlas layout version, the slim-arm heuristic, and where the skin and
    cape images are fetched from. */
module SkinTexture {
  import opened Js

  // ---------------------------------------------------------------------------
  // Texture version
  // ---------------------------------------------------------------------------

  /** The atlas layout version detected from the skin image's height:
      0 for the legacy 64x32 layout, 1 for the modern 64x64 layout, -1 when
      the height is neither. */
  function TextureVersion(height: int): (v: int)
    ensures v == 0 <==> height == 32
    ensures v == 1 <==> height == 64
    ensures v == -1 <==> height != 32 && height != 64
    ensures v >= 1 <==> height == 64
  {
    if height == 32 then 0
    else if height == 64 then 1
    else -1
  }

  // ---------------------------------------------------------------------------
  // Slim detection
  // ---------------------------------------------------------------------------

  /** Number of pixels read from each detection column. */
  const DetectRows: int := 12

  /** The alpha byte of pixel `p` in RGBA data read from a 1-pixel-wide column. */
  function Alpha(rgba: seq<int>, p: int): int
    requires 0 <= p < DetectRows && |rgba| == 4 * DetectRows
  {
    rgba[4 * p + 3]
  }

  /** A pixel counts as opaque only when its alpha byte is exactly 255. */
  predicate Opaque(rgba: seq<int>, p: int)
    requires 0 <= p < DetectRows && |rgba| == 4 * DetectRows
  {
    Alpha(rgba, p) == 255
  }

  /** The slim heuristic: no pixel of either detection column is opaque.
      `col1` is the data of column x=46, rows 52..63; `col2` that of column
      x=54, rows 20..31. */
  predicate ColumnsClear(col1: seq<int>, col2: seq<int>)
    requires |col1| == 4 * DetectRows && |col2| == 4 * DetectRows
  {
    forall p :: 0 <= p < DetectRows ==> !Opaque(col1, p) && !Opaque(col2, p)
  }

  /** The detection loop of the skin image's load handler: it walks the alpha
      bytes of both columns, pixel by pixel, and stops at the first opaque one. */
  method DetectSlim(col1: seq<int>, col2: seq<int>) returns (allTransparent: bool)
    requires |col1| == 4 * DetectRows && |col2| == 4 * DetectRows
    ensures allTransparent <==> ColumnsClear(col1, col2)
  {
    allTransparent := true;
    var i := 3;
    while i < 4 * DetectRows
      invariant 3 <= i <= 4 * DetectRows + 3 && i % 4 == 3
      invariant forall p :: 0 <= p < DetectRows && 4 * p + 3 < i ==> !Opaque(col1, p) && !Opaque(col2, p)
    {
      if col1[i] == 255 {
        allTransparent := false;
        assert Opaque(col1, (i - 3) / 4);
        break;
      }
      if col2[i] == 255 {
        allTransparent := false;
        assert Opaque(col2, (i - 3) / 4);
        break;
      }
      i := i + 4;
    }
  }

  /** Semi-transparent pixels count as transparent: columns whose alpha bytes
      are all below 255 are detected as slim, however opaque they look. */
  lemma {:induction false} TranslucentColumnsAreSlim(col1: seq<int>, col2: seq<int>)
    requires |col1| == 4 * DetectRows && |col2| == 4 * DetectRows
    requires forall k :: 0 <= k < |col1| ==> col1[k] < 255
    requires forall k :: 0 <= k < |col2| ==> col2[k] < 255
    ensures ColumnsClear(col1, col2)
  {
    forall p | 0 <= p < DetectRows
      ensures !Opaque(col1, p) && !Opaque(col2, p)
    {
      assert col1[4 * p + 3] < 255 && col2[4 * p + 3] < 255;
    }
  }

  /** A single fully opaque pixel in either column defeats the heuristic. */
  lemma OpaquePixelMeansClassic(col1: seq<int>, col2: seq<int>, p: int)
    requires |col1| == 4 * DetectRows && |col2| == 4 * DetectRows
    requires 0 <= p < DetectRows
    requires Opaque(col1, p) || Opaque(col2, p)
    ensures !ColumnsClear(col1, col2)
  {
  }

  // ---------------------------------------------------------------------------
  // Texture descriptors
  // ---------------------------------------------------------------------------

  /** The object form of a texture descriptor. A string property is `None`
      when it is `undefined`; `slim` is `None` when it is `undefined`;
      `optifine` is the truthiness of that property. */
  datatype TextureObject = TextureObject(
    url: Option<string>,
    data: Option<string>,
    username: Option<string>,
    uuid: Option<string>,
    mineskin: Option<string>,
    capeUrl: Option<string>,
    capeData: Option<string>,
    slim: Option<bool>,
    optifine: bool)

  /** What `render` may be given: a string, an object, `null`/`undefined`, or
      a value of any other type (a number, a boolean, a function). */
  datatype Descriptor =
    | StringTexture(s: string)
    | ObjectTexture(o: TextureObject)
    | NullTexture
    | OtherTexture

  /** Where the skin image comes from: a direct `src`, a pending
      name-to-UUID lookup (with or without the `?overlay` suffix on the
      resulting URL), or nowhere (no source field was truthy). */
  datatype SkinSource = SkinSrc(src: string) | SkinLookup(name: string, overlay: bool) | NoSkinSrc

  /** What `render` sets up before any image has loaded. */
  datatype LoadPlan = LoadPlan(
    skin: SkinSource,
    cape: Option<string>,
    hasCape: bool,
    detectSlim: bool,
    slim: bool,
    optifine: bool)

  const CrafatarSkins: string := "https://crafatar.com/skins/"
  const MineskinRender: string := "https://api.mineskin.org/render/texture/"

  predicate StartsWith(s: string, prefix: string)
  {
    |prefix| <= |s| && s[..|prefix|] == prefix
  }

  /** Whether a cape is expected: some cape-bearing property is present
      (not `undefined`), whatever its value. */
  predicate HasCape(t: Descriptor)
  {
    t.ObjectTexture? && (t.o.capeUrl.Some? || t.o.capeData.Some? || t.o.mineskin.Some?)
  }

  /** The skin source chosen from an object descriptor: the first truthy of
      url, data, username, uuid, mineskin. */
  function ObjectSkinSource(o: TextureObject): SkinSource
  {
    if TruthyStr(o.url) then SkinSrc(o.url.value)
    else if TruthyStr(o.data) then SkinSrc(o.data.value)
    else if TruthyStr(o.username) then SkinLookup(o.username.value, true)
    else if TruthyStr(o.uuid) then SkinSrc(CrafatarSkins + o.uuid.value + "?overlay")
    else if TruthyStr(o.mineskin) then SkinSrc(MineskinRender + o.mineskin.value)
    else NoSkinSrc
  }

  /** The cape source chosen from an object descriptor: the first truthy of
      capeUrl, capeData, mineskin. */
  function ObjectCapeSource(o: TextureObject): Option<string>
  {
    if TruthyStr(o.capeUrl) then Some(o.capeUrl.value)
    else if TruthyStr(o.capeData) then Some(o.capeData.value)
    else if TruthyStr(o.mineskin) then Some(MineskinRender + o.mineskin.value + "/cape")
    else None
  }

  /** The synchronous part of `render`: classify the descriptor, pick the
      image sources, decide whether a cape is expected and whether the slim
      flag is given or must be detected. */
  function Dispatch(t: Descriptor): (r: Result<LoadPlan>)
    // null/undefined fails when `hasCape` is computed; any non-string,
    // non-object value is rejected explicitly; a 17..36 character string that
    // is not a URL reaches an undeclared variable.
    ensures r.Err? <==>
      || t.NullTexture?
      || t.OtherTexture?
      || (t.StringTexture? && !StartsWith(t.s, "http") && 16 < |t.s| <= 36)
    ensures t.NullTexture? ==> r == Err(TypeError)
    ensures t.OtherTexture? ==> r == Err(Error("Invalid texture value"))
    ensures t.StringTexture? && r.Err? ==> r.error == ReferenceError
    ensures r.Ok? ==> r.value.hasCape == HasCape(t)
    // a string never brings a cape and always has its slim flag detected
    ensures r.Ok? && t.StringTexture? ==>
      r.value.cape == None && !r.value.hasCape && r.value.detectSlim && !r.value.slim && !r.value.optifine
    ensures r.Ok? && t.StringTexture? && StartsWith(t.s, "http") ==> r.value.skin == SkinSrc(t.s)
    ensures r.Ok? && t.StringTexture? && !StartsWith(t.s, "http") ==>
      r.value.skin == if |t.s| <= 16 then SkinLookup(t.s, false) else SkinSrc(t.s)
    // an object's explicit slim flag suppresses detection
    ensures r.Ok? && t.ObjectTexture? ==>
      && r.value.detectSlim == t.o.slim.None?
      && r.value.slim == (t.o.slim == Some(true))
      && r.value.optifine == t.o.optifine
    // an object's skin and cape sources follow their priority orders
    ensures r.Ok? && t.ObjectTexture? ==>
      r.value.skin == ObjectSkinSource(t.o) && r.value.cape == ObjectCapeSource(t.o)
    // a cape source is only ever chosen when a cape is expected
    ensures r.Ok? && r.value.cape.Some? ==> r.value.hasCape
  {
    match t
    case NullTexture => Err(TypeError)
    case OtherTexture => Err(Error("Invalid texture value"))
    case StringTexture(s) =>
      if StartsWith(s, "http") then Ok(LoadPlan(SkinSrc(s), None, false, true, false, false))
      else if |s| <= 16 then Ok(LoadPlan(SkinLookup(s, false), None, false, true, false, false))
      else if |s| <= 36 then Err(ReferenceError)
      else Ok(LoadPlan(SkinSrc(s), None, false, true, false, false))
    case ObjectTexture(o) =>
      Ok(LoadPlan(ObjectSkinSource(o), ObjectCapeSource(o), HasCape(t), o.slim.None?,
                  o.slim == Some(true), o.optifine))
  }

  /** Skin-source priority: url beats data beats username beats uuid beats
      mineskin; each is used exactly when every earlier one is falsy. */
  lemma SkinSourcePriority(o: TextureObject)
    ensures TruthyStr(o.url) ==> ObjectSkinSource(o) == SkinSrc(o.url.value)
    ensures !TruthyStr(o.url) && TruthyStr(o.data) ==> ObjectSkinSource(o) == SkinSrc(o.data.value)
    ensures !TruthyStr(o.url) && !TruthyStr(o.data) && TruthyStr(o.username) ==>
      ObjectSkinSource(o) == SkinLookup(o.username.value, true)
    ensures !TruthyStr(o.url) && !TruthyStr(o.data) && !TruthyStr(o.username) && TruthyStr(o.uuid) ==>
      ObjectSkinSource(o) == SkinSrc(CrafatarSkins + o.uuid.value + "?overlay")
    ensures ObjectSkinSource(o) == NoSkinSrc <==>
      !TruthyStr(o.url) && !TruthyStr(o.data) && !TruthyStr(o.username) && !TruthyStr(o.uuid) && !TruthyStr(o.mineskin)
  {
  }

  /** Cape-source priority: capeUrl beats capeData beats the mineskin cape;
      each is used exactly when every earlier one is falsy. */
  lemma CapeSourcePriority(o: TextureObject)
    ensures TruthyStr(o.capeUrl) ==> ObjectCapeSource(o) == Some(o.capeUrl.value)
    ensures !TruthyStr(o.capeUrl) && TruthyStr(o.capeData) ==> ObjectCapeSource(o) == Some(o.capeData.value)
    ensures !TruthyStr(o.capeUrl) && !TruthyStr(o.capeData) && TruthyStr(o.mineskin) ==>
      ObjectCapeSource(o) == Some(MineskinRender + o.mineskin.value + "/cape")
    ensures ObjectCapeSource(o).None? <==> !TruthyStr(o.capeUrl) && !TruthyStr(o.capeData) && !TruthyStr(o.mineskin)
  {
  }

  /** An empty string is no source: `{url: "", data: d}` loads `d`. */
  lemma EmptyUrlFallsThrough(d: string)
    requires d != ""
    ensures ObjectSkinSource(TextureObject(Some(""), Some(d), None, None, None, None, None, None, false)) == SkinSrc(d)
  {
  }

  /** A cape can be expected with no source to load it from: a cape property
      that is present but empty (`capeUrl: ""`) sets `hasCape` and requests
      nothing, so the cape never settles. */
  lemma ExpectedCapeWithoutSource(skinUrl: string)
    requires skinUrl != ""
    ensures var t := ObjectTexture(TextureObject(Some(skinUrl), None, None, None, None, Some(""), None, None, false));
            Dispatch(t).Ok? && Dispatch(t).value.hasCape && Dispatch(t).value.cape == None
  {
  }

  /** The outcome of the name-to-UUID lookup: a transport error, or a JSON
      body whose `id` property may be absent or empty. */
  datatype LookupResult = LookupFailed | LookupOk(id: Option<string>)

  /** The skin URL a lookup callback assigns, or `None` when the lookup
      failed and the skin image is never requested. A missing or empty `id`
      falls back to the name itself. */
  function LookupUrl(name: string, overlay: bool, res: LookupResult): (r: Option<string>)
    ensures r.None? <==> res.LookupFailed?
    ensures r.Some? ==> StartsWith(r.value, CrafatarSkins)
    ensures res.LookupOk? && TruthyStr(res.id) ==>
      r == Some(CrafatarSkins + res.id.value + (if overlay then "?overlay" else ""))
    ensures res.LookupOk? && !TruthyStr(res.id) ==>
      r == Some(CrafatarSkins + name + (if overlay then "?overlay" else ""))
  {
    match res
    case LookupFailed => None
    case LookupOk(id) =>
      var key := if TruthyStr(id) then id.value else name;
      Some(CrafatarSkins + key + (if overlay then "?overlay" else ""))
  }
}
