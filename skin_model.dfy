/** The player model: a fixed tree of pivot groups, each holding a body
    part's base cuboid and, on modern atlases, its slightly larger
    transparent overlay; plus an optional cape. */
module SkinModel {
  import opened Js
  import opened SkinCube
  import SkinTexture

  datatype Vec3 = Vec3(x: real, y: real, z: real)

  function Plus(a: Vec3, b: Vec3): Vec3
  {
    Vec3(a.x + b.x, a.y + b.y, a.z + b.z)
  }

  /** A scene-graph node: a group (no mesh) or a cuboid mesh, with its
      position relative to its parent and its rotation about the vertical
      axis, in degrees. */
  datatype Node = Node(name: string, position: Vec3, rotationYDegrees: int,
                       mesh: Option<CubeMesh>, children: seq<Node>)

  /** The atlas rectangles of every body part. Base parts are indexed by
      texture version (a JavaScript array, so a negative index finds
      nothing); overlay and cape tables exist once, or are `undefined`. */
  datatype TexturePositions = TexturePositions(
    head: seq<FaceTable>, body: seq<FaceTable>,
    leftArm: seq<FaceTable>, rightArm: seq<FaceTable>,
    leftLeg: seq<FaceTable>, rightLeg: seq<FaceTable>,
    hat: Option<FaceTable>, jacket: Option<FaceTable>,
    leftSleeve: Option<FaceTable>, rightSleeve: Option<FaceTable>,
    leftTrousers: Option<FaceTable>, rightTrousers: Option<FaceTable>,
    cape: Option<FaceTable>, capeOptifine: Option<FaceTable>)

  predicate CompleteVersions(s: seq<FaceTable>)
  {
    |s| == 2 && HasAllFaces(s[0]) && HasAllFaces(s[1])
  }

  predicate CompleteTable(t: Option<FaceTable>)
  {
    t.Some? && HasAllFaces(t.value)
  }

  /** A table with both layout versions of every base part and every
      overlay and cape rectangle, each with all six faces. */
  predicate Complete(T: TexturePositions)
  {
    && CompleteVersions(T.head) && CompleteVersions(T.body)
    && CompleteVersions(T.leftArm) && CompleteVersions(T.rightArm)
    && CompleteVersions(T.leftLeg) && CompleteVersions(T.rightLeg)
    && CompleteTable(T.hat) && CompleteTable(T.jacket)
    && CompleteTable(T.leftSleeve) && CompleteTable(T.rightSleeve)
    && CompleteTable(T.leftTrousers) && CompleteTable(T.rightTrousers)
    && CompleteTable(T.cape) && CompleteTable(T.capeOptifine)
  }

  /** The additive margin by which an overlay exceeds its base part. */
  const OverlayMargin: real := 0.504

  /** Names of the six pivot groups' base meshes, in child order. */
  const PartNames: seq<string> := ["head", "body", "leftArm", "rightArm", "leftLeg", "rightLeg"]

  function ArmWidth(slim: bool): real { if slim then 3.0 else 4.0 }
  function ArmOffset(slim: bool): real { if slim then 5.5 else 6.0 }

  /** Where each part's mesh is centred, relative to the player group. */
  function Nominal(i: int, slim: bool): Vec3
    requires 0 <= i < 6
  {
    [Vec3(0.0, 28.0, 0.0), Vec3(0.0, 18.0, 0.0),
     Vec3(-ArmOffset(slim), 18.0, 0.0), Vec3(ArmOffset(slim), 18.0, 0.0),
     Vec3(-2.0, 6.0, 0.0), Vec3(2.0, 6.0, 0.0)][i]
  }

  /** A mesh inside a pivot group, moved back by `-pivot` so that it rests
      at the part's nominal centre. */
  function MeshNode(m: CubeMesh, pivot: Vec3, rotationY: int): Node
  {
    Node(m.name, Vec3(-pivot.x, -pivot.y, -pivot.z), rotationY, Some(m), [])
  }

  /** A pivot group: the group sits at the joint, `pivot` away from the
      part's nominal centre, and every mesh inside is moved back by
      `-pivot`, so the part rotates about the joint but rests at `nominal`. */
  function Pivoted(nominal: Vec3, pivot: Vec3, meshRotationY: int, meshes: seq<CubeMesh>): (g: Node)
    ensures |g.children| == |meshes|
  {
    Node("", Plus(nominal, pivot), 0, None,
         seq(|meshes|, i requires 0 <= i < |meshes| => MeshNode(meshes[i], pivot, meshRotationY)))
  }

  /** A pivot group of one mesh, written out. */
  lemma PivotedOne(nominal: Vec3, pivot: Vec3, rotationY: int, m: CubeMesh)
    ensures Pivoted(nominal, pivot, rotationY, [m])
         == Node("", Plus(nominal, pivot), 0, None, [MeshNode(m, pivot, rotationY)])
  {
    var g := Pivoted(nominal, pivot, rotationY, [m]);
    assert g.children == [MeshNode(m, pivot, rotationY)];
  }

  /** A pivot group of two meshes, written out. */
  lemma PivotedTwo(nominal: Vec3, pivot: Vec3, rotationY: int, m: CubeMesh, n: CubeMesh)
    ensures Pivoted(nominal, pivot, rotationY, [m] + [n])
         == Node("", Plus(nominal, pivot), 0, None, [MeshNode(m, pivot, rotationY), MeshNode(n, pivot, rotationY)])
  {
    var g := Pivoted(nominal, pivot, rotationY, [m] + [n]);
    assert g.children == [MeshNode(m, pivot, rotationY), MeshNode(n, pivot, rotationY)];
  }

  function Up(d: real): Vec3 { Vec3(0.0, d, 0.0) }

  /** The overlay of a part: present only from texture version 1 on. */
  function Overlay(v: int, skin: TexSize, w: real, h: real, d: real,
                   table: Option<FaceTable>, slim: bool, name: string): (r: Result<seq<CubeMesh>>)
    requires Loaded(skin)
    ensures r.Ok? ==> |r.value| == (if v >= 1 then 1 else 0)
  {
    if v >= 1 then
      var m :- Cube(skin, w, h, d, table, slim, name, true);
      Ok([m])
    else Ok([])
  }

  /** The cape group, when a cape texture is given: an 8x16x1 cuboid built
      without slim overrides, turned 180 degrees, using the OptiFine table
      when asked to. */
  function CapeGroup(cape: Option<TexSize>, optifine: bool, T: TexturePositions): (r: Result<seq<Node>>)
    requires cape.Some? ==> Loaded(cape.value)
    ensures r.Ok? ==> |r.value| == (if cape.Some? then 1 else 0)
  {
    if cape.None? then Ok([])
    else
      var m :- Cube(cape.value, 8.0, 16.0, 1.0, if optifine then T.capeOptifine else T.cape, false, "cape", false);
      Ok([Pivoted(Vec3(0.0, 16.0, -2.5), Vec3(0.0, 8.0, 0.5), 180, [m])])
  }

  /** A cuboid to build: its name, its size and its face table. */
  datatype PartSpec = PartSpec(name: string, width: real, height: real, depth: real, table: Option<FaceTable>)

  /** One body part's pivot group: the opaque base cuboid and, from texture
      version 1 on, the transparent overlay, both resting at `nominal`
      while the group sits at the joint `pivotY` above it. */
  function PartGroup(skin: TexSize, v: int, slim: bool, nominal: Vec3, pivotY: real,
                     base: PartSpec, overlay: PartSpec): (r: Result<Node>)
    requires Loaded(skin)
  {
    var b :- Cube(skin, base.width, base.height, base.depth, base.table, slim, base.name, false);
    var o :- Overlay(v, skin, overlay.width, overlay.height, overlay.depth, overlay.table, slim, overlay.name);
    Ok(Pivoted(nominal, Up(pivotY), 0, [b] + o))
  }

  /** How far above the part's centre its joint lies: the head turns about
      its base, the body about its centre, limbs about their top end. */
  function PivotY(i: int): real
    requires 0 <= i < 6
  {
    if i == 0 then -4.0 else if i == 1 then 0.0 else 4.0
  }

  /** The base cuboid of part `i`; its table is picked by texture version. */
  function BaseSpec(i: int, slim: bool, v: int, T: TexturePositions): PartSpec
    requires 0 <= i < 6
  {
    if i == 0 then PartSpec("head", 8.0, 8.0, 8.0, Index(T.head, v))
    else if i == 1 then PartSpec("body", 8.0, 12.0, 4.0, Index(T.body, v))
    else if i == 2 then PartSpec("leftArm", ArmWidth(slim), 12.0, 4.0, Index(T.leftArm, v))
    else if i == 3 then PartSpec("rightArm", ArmWidth(slim), 12.0, 4.0, Index(T.rightArm, v))
    else if i == 4 then PartSpec("leftLeg", 4.0, 12.0, 4.0, Index(T.leftLeg, v))
    else PartSpec("rightLeg", 4.0, 12.0, 4.0, Index(T.rightLeg, v))
  }

  /** The overlay cuboid of part `i`. */
  function OverlaySpec(i: int, slim: bool, T: TexturePositions): PartSpec
    requires 0 <= i < 6
  {
    if i == 0 then PartSpec("hat", 8.504, 8.504, 8.504, T.hat)
    else if i == 1 then PartSpec("jacket", 8.504, 12.504, 4.504, T.jacket)
    else if i == 2 then PartSpec("leftSleeve", ArmWidth(slim) + OverlayMargin, 12.504, 4.504, T.leftSleeve)
    else if i == 3 then PartSpec("rightSleeve", ArmWidth(slim) + OverlayMargin, 12.504, 4.504, T.rightSleeve)
    else if i == 4 then PartSpec("leftTrousers", 4.504, 12.504, 4.504, T.leftTrousers)
    else PartSpec("rightTrousers", 4.504, 12.504, 4.504, T.rightTrousers)
  }

  /** The pivot group of body part `i` (head, body, left arm, right arm,
      left leg, right leg). */
  function Part(i: int, skin: TexSize, v: int, slim: bool, T: TexturePositions): Result<Node>
    requires 0 <= i < 6 && Loaded(skin)
  {
    PartGroup(skin, v, slim, Nominal(i, slim), PivotY(i), BaseSpec(i, slim, v, T), OverlaySpec(i, slim, T))
  }

  /** Part `i` as the `i`-th of the statement blocks `createPlayerModel`
      runs one after another; only blocks 0 to 5 exist. */
  function PartFn(skin: TexSize, v: int, slim: bool, T: TexturePositions): nat -> Result<Node>
    requires Loaded(skin)
  {
    (i: nat) => if i < 6 then Part(i, skin, v, slim, T) else Err(TypeError)
  }

  /** The six body-part groups, head, body, left arm, right arm, left leg,
      right leg, built in that order: the first that throws decides the
      exception. */
  function BodyGroups(skin: TexSize, v: int, slim: bool, T: TexturePositions): (r: Result<seq<Node>>)
    requires Loaded(skin)
  {
    InOrder(6, PartFn(skin, v, slim, T))
  }

  /** The player model `createPlayerModel` builds, or the `TypeError` it
      throws when a part's table is missing (as for version -1). */
  function PlayerModel(skin: TexSize, cape: Option<TexSize>, v: int, slim: bool, optifine: bool,
                       T: TexturePositions): Result<Node>
    requires Loaded(skin) && (cape.Some? ==> Loaded(cape.value))
  {
    var parts :- BodyGroups(skin, v, slim, T);
    var capeGroup :- CapeGroup(cape, optifine, T);
    Ok(Node("", Vec3(0.0, 0.0, 0.0), 0, None, parts + capeGroup))
  }

  // ---------------------------------------------------------------------------
  // The imperative construction
  // ---------------------------------------------------------------------------

  /** A fresh `Object3D` at the given position. */
  function NewGroup(x: real, y: real, z: real): Node
  {
    Node("", Vec3(x, y, z), 0, None, [])
  }

  /** A fresh mesh object at the origin. */
  function NewMesh(m: CubeMesh): Node
  {
    Node(m.name, Vec3(0.0, 0.0, 0.0), 0, Some(m), [])
  }

  /** `translateOnAxis` on an object that has not been rotated yet, so its
      local axes are the parent's. */
  function TranslateOnAxis(n: Node, axis: Vec3, d: real): Node
    requires n.rotationYDegrees == 0
  {
    n.(position := Vec3(n.position.x + axis.x * d, n.position.y + axis.y * d, n.position.z + axis.z * d))
  }

  function AddChild(parent: Node, child: Node): Node
  {
    parent.(children := parent.children + [child])
  }

  const YAxis: Vec3 := Vec3(0.0, 1.0, 0.0)
  const ZAxis: Vec3 := Vec3(0.0, 0.0, 1.0)

  /** The statements `createPlayerModel` repeats for each body part: create
      the group at `position`, move it `pivotY` up to the joint, create the
      base cuboid and move it back down, then, on a modern atlas, the same
      for the transparent overlay. */
  method BuildPartGroup(skin: TexSize, v: int, slim: bool, position: Vec3, pivotY: real,
                        base: PartSpec, overlay: PartSpec) returns (r: Result<Node>)
    requires Loaded(skin)
    ensures r == PartGroup(skin, v, slim, position, pivotY, base, overlay)
  {
    var group := NewGroup(position.x, position.y, position.z);
    if pivotY != 0.0 {
      group := TranslateOnAxis(group, YAxis, pivotY);
    }
    assert group == Node("", Plus(position, Up(pivotY)), 0, None, []);
    var b :- CreateCube(skin, base.width, base.height, base.depth, base.table, slim, base.name, false);
    var bNode := NewMesh(b);
    if pivotY != 0.0 {
      bNode := TranslateOnAxis(bNode, YAxis, -pivotY);
    }
    assert bNode == MeshNode(b, Up(pivotY), 0);
    group := AddChild(group, bNode);
    if v >= 1 {
      var o :- CreateCube(skin, overlay.width, overlay.height, overlay.depth, overlay.table, slim, overlay.name, true);
      var oNode := NewMesh(o);
      if pivotY != 0.0 {
        oNode := TranslateOnAxis(oNode, YAxis, -pivotY);
      }
      assert oNode == MeshNode(o, Up(pivotY), 0);
      group := AddChild(group, oNode);
      assert group.children == [bNode, oNode];
      PivotedTwo(position, Up(pivotY), 0, b, o);
    } else {
      assert group.children == [bNode];
      PivotedOne(position, Up(pivotY), 0, b);
      assert [b] + [] == [b];
    }
    r := Ok(group);
  }

  /** The cape half of `createPlayerModel`, run only when a cape texture is
      given: a group at the shoulders holding the cuboid, turned around. */
  method BuildCapeGroup(cape: TexSize, optifine: bool, T: TexturePositions) returns (r: Result<Node>)
    requires Loaded(cape)
    ensures CapeGroup(Some(cape), optifine, T) == (if r.Ok? then Ok([r.value]) else Err(r.error))
  {
    var capeGroup := NewGroup(0.0, 16.0, -2.5);
    capeGroup := TranslateOnAxis(capeGroup, YAxis, 8.0);
    capeGroup := TranslateOnAxis(capeGroup, ZAxis, 0.5);
    var capeMesh :- CreateCube(cape, 8.0, 16.0, 1.0, if optifine then T.capeOptifine else T.cape, false, "cape", false);
    var capeNode := TranslateOnAxis(NewMesh(capeMesh), YAxis, -8.0);
    capeNode := TranslateOnAxis(capeNode, ZAxis, -0.5);
    capeNode := capeNode.(rotationYDegrees := 180);
    assert capeNode == MeshNode(capeMesh, Vec3(0.0, 8.0, 0.5), 180);
    assert capeGroup == Node("", Plus(Vec3(0.0, 16.0, -2.5), Vec3(0.0, 8.0, 0.5)), 0, None, []);
    capeGroup := AddChild(capeGroup, capeNode);
    assert capeGroup.children == [capeNode];
    PivotedOne(Vec3(0.0, 16.0, -2.5), Vec3(0.0, 8.0, 0.5), 180, capeMesh);
    r := Ok(capeGroup);
  }

  lemma ModelAssembles(skin: TexSize, cape: Option<TexSize>, v: int, slim: bool, optifine: bool,
                       T: TexturePositions, parts: seq<Node>, capeGroup: seq<Node>)
    requires Loaded(skin) && (cape.Some? ==> Loaded(cape.value))
    requires BodyGroups(skin, v, slim, T) == Ok(parts)
    requires CapeGroup(cape, optifine, T) == Ok(capeGroup)
    ensures PlayerModel(skin, cape, v, slim, optifine, T) == Ok(Node("", Vec3(0.0, 0.0, 0.0), 0, None, parts + capeGroup))
  {
  }

  lemma ModelThrowsWithCape(skin: TexSize, cape: Option<TexSize>, v: int, slim: bool, optifine: bool,
                            T: TexturePositions, parts: seq<Node>)
    requires Loaded(skin) && (cape.Some? ==> Loaded(cape.value))
    requires BodyGroups(skin, v, slim, T) == Ok(parts)
    requires CapeGroup(cape, optifine, T).Err?
    ensures PlayerModel(skin, cape, v, slim, optifine, T) == Err(CapeGroup(cape, optifine, T).error)
  {
  }

  /** The statements for body part `i`, with that part's constants. */
  method BuildPart(i: int, skin: TexSize, v: int, slim: bool, T: TexturePositions) returns (r: Result<Node>)
    requires 0 <= i < 6 && Loaded(skin)
    ensures r == Part(i, skin, v, slim, T)
  {
    r := BuildPartGroup(skin, v, slim, Nominal(i, slim), PivotY(i), BaseSpec(i, slim, v, T), OverlaySpec(i, slim, T));
  }

  /** The first half of `createPlayerModel`: build the six part groups in
      order; the first one that fails throws. */
  method BuildBodyGroups(skin: TexSize, v: int, slim: bool, T: TexturePositions) returns (r: Result<seq<Node>>)
    requires Loaded(skin)
    ensures r == BodyGroups(skin, v, slim, T)
  {
    var parts: seq<Node> := [];
    for i := 0 to 6
      invariant InOrder(i, PartFn(skin, v, slim, T)) == Ok(parts)
    {
      var g := BuildPart(i, skin, v, slim, T);
      InOrderStep(i, PartFn(skin, v, slim, T), parts);
      if g.Err? {
        FailureSticks(i + 1, 6, PartFn(skin, v, slim, T));
        return Err(g.error);
      }
      parts := parts + [g.value];
    }
    r := Ok(parts);
  }

  /** The player group at the origin with the given groups added, in order. */
  method GroupAll(parts: seq<Node>) returns (playerGroup: Node)
    ensures playerGroup == Node("", Vec3(0.0, 0.0, 0.0), 0, None, parts)
  {
    playerGroup := NewGroup(0.0, 0.0, 0.0);
    for i := 0 to |parts|
      invariant playerGroup == Node("", Vec3(0.0, 0.0, 0.0), 0, None, parts[..i])
    {
      assert parts[..i + 1] == parts[..i] + [parts[i]];
      playerGroup := AddChild(playerGroup, parts[i]);
    }
    assert parts[..|parts|] == parts;
  }

  /** `createPlayerModel`: build the six part groups in order (the first
      failure throws), put them under one player group, then add the cape
      group when a cape texture is given. */
  method CreatePlayerModel(skin: TexSize, cape: Option<TexSize>, v: int, slim: bool, optifine: bool,
                           T: TexturePositions) returns (r: Result<Node>)
    requires Loaded(skin) && (cape.Some? ==> Loaded(cape.value))
    ensures r == PlayerModel(skin, cape, v, slim, optifine, T)
  {
    var parts :- BuildBodyGroups(skin, v, slim, T);
    var playerGroup := GroupAll(parts);
    if cape.Some? {
      var capeResult := BuildCapeGroup(cape.value, optifine, T);
      if capeResult.Err? {
        ModelThrowsWithCape(skin, cape, v, slim, optifine, T, parts);
        return Err(capeResult.error);
      }
      playerGroup := AddChild(playerGroup, capeResult.value);
      ModelAssembles(skin, cape, v, slim, optifine, T, parts, [capeResult.value]);
    } else {
      ModelAssembles(skin, cape, v, slim, optifine, T, parts, []);
      assert parts + [] == parts;
    }
    r := Ok(playerGroup);
  }

  /** The model-building half of `imagesLoaded`: detect the texture version
      from the skin's height, then build the player model with it. */
  method ImagesLoaded(skin: TexSize, cape: Option<TexSize>, slim: bool, optifine: bool, T: TexturePositions)
    returns (version: int, r: Result<Node>)
    requires Loaded(skin) && (cape.Some? ==> Loaded(cape.value))
    ensures version == SkinTexture.TextureVersion(skin.height)
    ensures r == PlayerModel(skin, cape, version, slim, optifine, T)
  {
    version := -1;
    if skin.height == 32 {
      version := 0;
    } else if skin.height == 64 {
      version := 1;
    }
    r := CreatePlayerModel(skin, cape, version, slim, optifine, T);
  }

  // ---------------------------------------------------------------------------
  // Properties of the player model
  // ---------------------------------------------------------------------------

  /** Every child of `g`, placed inside `g`, rests at `nominal`. */
  predicate RestsAt(g: Node, nominal: Vec3)
  {
    forall k :: 0 <= k < |g.children| ==> Plus(g.position, g.children[k].position) == nominal
  }

  /** `m` is the cuboid `p` describes, opaque or transparent, textured
      from `p`'s face table on the atlas `tex`. */
  predicate Made(m: CubeMesh, p: PartSpec, transparent: bool, slim: bool, tex: TexSize)
    requires Loaded(tex)
  {
    && m.name == p.name
    && m.width == p.width && m.height == p.height && m.depth == p.depth
    && m.transparent == transparent
    && (m.side == DoubleSide <==> transparent)
    && CompleteTable(p.table)
    && m.uvs == CubeUvs(p.table.value, slim, tex)
  }

  /** A part's group is built exactly when its base table is complete and,
      on a modern atlas, its overlay table is too; otherwise it throws a
      `TypeError`. */
  lemma PartGroupBuilds(skin: TexSize, v: int, slim: bool, nominal: Vec3, pivotY: real,
                        base: PartSpec, overlay: PartSpec)
    requires Loaded(skin)
    ensures PartGroup(skin, v, slim, nominal, pivotY, base, overlay).Ok? <==>
      CompleteTable(base.table) && (v >= 1 ==> CompleteTable(overlay.table))
    ensures PartGroup(skin, v, slim, nominal, pivotY, base, overlay).Err? ==>
      PartGroup(skin, v, slim, nominal, pivotY, base, overlay).error == TypeError
  {
  }

  /** The shape of a part group: the group sits at the joint, unrotated and
      without a mesh of its own; it holds the opaque base cuboid and, from
      version 1 on, the transparent overlay; every mesh is a leaf resting at
      the part's nominal centre. */
  predicate GroupShaped(g: Node, nominal: Vec3, pivotY: real, v: int, base: PartSpec, overlay: PartSpec,
                        slim: bool, skin: TexSize)
    requires Loaded(skin)
  {
    && g.mesh.None? && g.rotationYDegrees == 0
    && g.position == Plus(nominal, Up(pivotY))
    && |g.children| == (if v >= 1 then 2 else 1)
    && RestsAt(g, nominal)
    && (forall k :: 0 <= k < |g.children| ==>
          g.children[k].mesh.Some? && g.children[k].children == [] && g.children[k].rotationYDegrees == 0
          && g.children[k].name == g.children[k].mesh.value.name)
    && Made(g.children[0].mesh.value, base, false, slim, skin)
    && (v >= 1 ==> Made(g.children[1].mesh.value, overlay, true, slim, skin))
  }

  /** Every built part group has the shape above. */
  lemma {:induction false} PartGroupShape(skin: TexSize, v: int, slim: bool, nominal: Vec3, pivotY: real,
                                          base: PartSpec, overlay: PartSpec, g: Node)
    requires Loaded(skin)
    requires PartGroup(skin, v, slim, nominal, pivotY, base, overlay) == Ok(g)
    ensures GroupShaped(g, nominal, pivotY, v, base, overlay, slim, skin)
  {
    var b := Cube(skin, base.width, base.height, base.depth, base.table, slim, base.name, false).value;
    var bNode := MeshNode(b, Up(pivotY), 0);
    if v >= 1 {
      var o := Cube(skin, overlay.width, overlay.height, overlay.depth, overlay.table, slim, overlay.name, true).value;
      PivotedTwo(nominal, Up(pivotY), 0, b, o);
      assert g.children == [bNode, MeshNode(o, Up(pivotY), 0)];
    } else {
      PivotedOne(nominal, Up(pivotY), 0, b);
      assert [b] + [] == [b];
      assert g.children == [bNode];
    }
  }

  /** The root of a built model: a group at the origin whose children are
      the six part groups followed by the cape group exactly when a cape
      texture is given. */
  lemma PlayerModelRoot(skin: TexSize, cape: Option<TexSize>, v: int, slim: bool, optifine: bool,
                        T: TexturePositions, root: Node)
    requires Loaded(skin) && (cape.Some? ==> Loaded(cape.value))
    requires PlayerModel(skin, cape, v, slim, optifine, T) == Ok(root)
    ensures root.position == Vec3(0.0, 0.0, 0.0) && root.mesh.None?
    ensures |root.children| == (if cape.Some? then 7 else 6)
    ensures cape.Some? ==> CapeGroup(cape, optifine, T) == Ok([root.children[6]])
  {
    var parts := BodyGroups(skin, v, slim, T).value;
    var capeGroup := CapeGroup(cape, optifine, T).value;
    ModelAssembles(skin, cape, v, slim, optifine, T, parts, capeGroup);
    if cape.Some? {
      assert capeGroup == [root.children[6]];
    }
  }

  /** Child `i` of a built model is part `i`'s group, in the order head,
      body, left arm, right arm, left leg, right leg. */
  lemma PlayerModelPart(skin: TexSize, cape: Option<TexSize>, v: int, slim: bool, optifine: bool,
                        T: TexturePositions, root: Node, i: int)
    requires Loaded(skin) && (cape.Some? ==> Loaded(cape.value))
    requires PlayerModel(skin, cape, v, slim, optifine, T) == Ok(root)
    requires 0 <= i < 6
    ensures i < |root.children| && Part(i, skin, v, slim, T) == Ok(root.children[i])
  {
    var parts := BodyGroups(skin, v, slim, T).value;
    var capeGroup := CapeGroup(cape, optifine, T).value;
    ModelAssembles(skin, cape, v, slim, optifine, T, parts, capeGroup);
    assert root.children[i] == parts[i];
    InOrderIndex(6, PartFn(skin, v, slim, T), i);
  }

  /** What a built group of part `i` holds: the base mesh named after the
      part, 8x8x8 for the head, 8x12x4 for the body, 3x12x4 (slim) or
      4x12x4 for an arm and 4x12x4 for a leg, textured from the part's table
      for version `v`; on a modern atlas, the overlay 0.504 larger on every
      axis and textured from the overlay table; all of them resting at the
      part's nominal centre below the joint. */
  predicate PartShape(g: Node, i: int, v: int, slim: bool, skin: TexSize, T: TexturePositions)
    requires 0 <= i < 6 && Loaded(skin)
  {
    && |g.children| == (if v >= 1 then 2 else 1)
    && (forall k :: 0 <= k < |g.children| ==> g.children[k].mesh.Some?)
    && RestsAt(g, Nominal(i, slim))
    && g.position == Plus(Nominal(i, slim), Up(PivotY(i)))
    && g.children[0].name == PartNames[i]
    && !g.children[0].mesh.value.transparent && g.children[0].mesh.value.side == FrontSide
    && g.children[0].mesh.value.width == (if i < 2 then 8.0 else if i < 4 then (if slim then 3.0 else 4.0) else 4.0)
    && g.children[0].mesh.value.height == (if i == 0 then 8.0 else 12.0)
    && g.children[0].mesh.value.depth == (if i == 0 then 8.0 else 4.0)
    && Made(g.children[0].mesh.value, BaseSpec(i, slim, v, T), false, slim, skin)
    && (v >= 1 ==> Made(g.children[1].mesh.value, OverlaySpec(i, slim, T), true, slim, skin))
    && (v >= 1 ==>
          var base := g.children[0].mesh.value;
          var over := g.children[1].mesh.value;
          && over.transparent && over.side == DoubleSide
          && over.width == base.width + OverlayMargin
          && over.height == base.height + OverlayMargin
          && over.depth == base.depth + OverlayMargin)
  }

  /** The specs of part `i`: the base is named after the part; the head is
      8x8x8, the body 8x12x4, arms 3 (slim) or 4 wide by 12x4 and legs
      4x12x4; the overlay exceeds the base by the margin on every axis. */
  lemma SpecsOfPart(i: int, slim: bool, v: int, T: TexturePositions)
    requires 0 <= i < 6
    ensures BaseSpec(i, slim, v, T).name == PartNames[i]
    ensures BaseSpec(i, slim, v, T).width == (if i < 2 then 8.0 else if i < 4 then (if slim then 3.0 else 4.0) else 4.0)
    ensures BaseSpec(i, slim, v, T).height == (if i == 0 then 8.0 else 12.0)
    ensures BaseSpec(i, slim, v, T).depth == (if i == 0 then 8.0 else 4.0)
    ensures OverlaySpec(i, slim, T).width == BaseSpec(i, slim, v, T).width + OverlayMargin
    ensures OverlaySpec(i, slim, T).height == BaseSpec(i, slim, v, T).height + OverlayMargin
    ensures OverlaySpec(i, slim, T).depth == BaseSpec(i, slim, v, T).depth + OverlayMargin
  {
  }

  /** Every built part group has its part's shape. */
  lemma {:induction false} PartShapeHolds(i: int, skin: TexSize, v: int, slim: bool, T: TexturePositions, g: Node)
    requires 0 <= i < 6 && Loaded(skin)
    requires Part(i, skin, v, slim, T) == Ok(g)
    ensures PartShape(g, i, v, slim, skin, T)
  {
    PartGroupShape(skin, v, slim, Nominal(i, slim), PivotY(i), BaseSpec(i, slim, v, T), OverlaySpec(i, slim, T), g);
    SpecsOfPart(i, slim, v, T);
  }

  /** Every body part of a built model has its shape: names, sizes (head
      8x8x8, body 8x12x4, arms 3 or 4 by 12x4, legs 4x12x4, overlays 0.504
      larger than their base), face tables, transparency, and resting
      place. */
  lemma PlayerModelShape(skin: TexSize, cape: Option<TexSize>, v: int, slim: bool,
                         optifine: bool, T: TexturePositions, root: Node, i: int)
    requires Loaded(skin) && (cape.Some? ==> Loaded(cape.value))
    requires PlayerModel(skin, cape, v, slim, optifine, T) == Ok(root)
    requires 0 <= i < 6
    ensures i < |root.children| && PartShape(root.children[i], i, v, slim, skin, T)
  {
    PlayerModelPart(skin, cape, v, slim, optifine, T, root, i);
    PartShapeHolds(i, skin, v, slim, T, root.children[i]);
  }

  /** The cape group: at the shoulders (0, 24, -2), its one mesh an opaque
      8x16x1 cuboid named "cape", turned 180 degrees and resting at
      (0, 16, -2.5), textured from the OptiFine layout exactly when asked
      to and never with the slim-arm overrides. */
  predicate CapeShaped(c: Node, cape: TexSize, optifine: bool, T: TexturePositions)
    requires Loaded(cape)
  {
    var table := if optifine then T.capeOptifine else T.cape;
    && c.position == Vec3(0.0, 24.0, -2.0)
    && |c.children| == 1
    && c.children[0].rotationYDegrees == 180
    && Plus(c.position, c.children[0].position) == Vec3(0.0, 16.0, -2.5)
    && c.children[0].mesh.Some?
    && Made(c.children[0].mesh.value, PartSpec("cape", 8.0, 16.0, 1.0, table), false, false, cape)
  }

  /** A built cape group has the cape's shape. */
  lemma CapeGroupShape(cape: TexSize, optifine: bool, T: TexturePositions, c: Node)
    requires Loaded(cape)
    requires CapeGroup(Some(cape), optifine, T) == Ok([c])
    ensures CapeShaped(c, cape, optifine, T)
  {
    var m := Cube(cape, 8.0, 16.0, 1.0, if optifine then T.capeOptifine else T.cape, false, "cape", false).value;
    PivotedOne(Vec3(0.0, 16.0, -2.5), Vec3(0.0, 8.0, 0.5), 180, m);
  }

  /** A built model given a cape texture ends with the cape group. */
  lemma PlayerModelCape(skin: TexSize, cape: Option<TexSize>, v: int, slim: bool, optifine: bool,
                        T: TexturePositions, root: Node)
    requires Loaded(skin) && (cape.Some? ==> Loaded(cape.value))
    requires PlayerModel(skin, cape, v, slim, optifine, T) == Ok(root)
    requires cape.Some?
    ensures |root.children| == 7 && CapeShaped(root.children[6], cape.value, optifine, T)
  {
    PlayerModelRoot(skin, cape, v, slim, optifine, T, root);
    CapeGroupShape(cape.value, optifine, T, root.children[6]);
  }

  /** With complete texture positions, every part builds for the two known
      texture versions. */
  lemma PartBuilds(i: int, skin: TexSize, v: int, slim: bool, T: TexturePositions)
    requires 0 <= i < 6 && Loaded(skin)
    requires Complete(T) && (v == 0 || v == 1)
    ensures Part(i, skin, v, slim, T).Ok?
  {
    PartGroupBuilds(skin, v, slim, Nominal(i, slim), PivotY(i), BaseSpec(i, slim, v, T), OverlaySpec(i, slim, T));
  }

  /** With complete texture positions, all six groups build for the two
      known texture versions. */
  lemma BodyGroupsBuild(skin: TexSize, v: int, slim: bool, T: TexturePositions)
    requires Loaded(skin)
    requires Complete(T) && (v == 0 || v == 1)
    ensures BodyGroups(skin, v, slim, T).Ok?
  {
    var f := PartFn(skin, v, slim, T);
    forall k: nat | k < 6
      ensures f(k).Ok?
    {
      PartBuilds(k, skin, v, slim, T);
    }
    AllSucceed(6, f);
  }

  /** Without a head table for the version (as for version -1), the head,
      built first, throws a `TypeError`, and so does the whole model. */
  lemma MissingHeadThrows(skin: TexSize, cape: Option<TexSize>, v: int, slim: bool, optifine: bool,
                          T: TexturePositions)
    requires Loaded(skin) && (cape.Some? ==> Loaded(cape.value))
    requires Index(T.head, v).None?
    ensures PlayerModel(skin, cape, v, slim, optifine, T) == Err(TypeError)
  {
    assert Part(0, skin, v, slim, T) == Err(TypeError);
    var f := PartFn(skin, v, slim, T);
    assert f(0) == Err(TypeError);
    InOrderStep(0, f, []);
    FailureSticks(1, 6, f);
  }

  /** With complete texture positions, the model builds exactly for the two
      known texture versions. */
  lemma PlayerModelBuildsIff(skin: TexSize, cape: Option<TexSize>, v: int, slim: bool,
                             optifine: bool, T: TexturePositions)
    requires Loaded(skin) && (cape.Some? ==> Loaded(cape.value))
    requires Complete(T)
    ensures PlayerModel(skin, cape, v, slim, optifine, T).Ok? <==> v == 0 || v == 1
  {
    if v == 0 || v == 1 {
      BodyGroupsBuild(skin, v, slim, T);
    } else {
      MissingHeadThrows(skin, cape, v, slim, optifine, T);
    }
  }

  /** An unknown texture version (a skin neither 32 nor 64 pixels high)
      makes `createPlayerModel` throw a `TypeError`, whatever the tables. */
  lemma UnknownVersionThrows(skin: TexSize, cape: Option<TexSize>, slim: bool, optifine: bool, T: TexturePositions)
    requires Loaded(skin) && (cape.Some? ==> Loaded(cape.value))
    requires skin.height != 32 && skin.height != 64
    ensures PlayerModel(skin, cape, SkinTexture.TextureVersion(skin.height), slim, optifine, T) == Err(TypeError)
  {
    MissingHeadThrows(skin, cape, SkinTexture.TextureVersion(skin.height), slim, optifine, T);
  }

  /** A legacy 64x32 atlas gives every part its base cuboid only; a modern
      64x64 atlas adds the overlay to every part. */
  lemma AtlasHeightDecidesOverlays(skin: TexSize, cape: Option<TexSize>, slim: bool, optifine: bool,
                                   T: TexturePositions, root: Node, i: int)
    requires Loaded(skin) && (cape.Some? ==> Loaded(cape.value))
    requires PlayerModel(skin, cape, SkinTexture.TextureVersion(skin.height), slim, optifine, T) == Ok(root)
    requires 0 <= i < 6
    ensures i < |root.children|
    ensures skin.height == 32 ==> |root.children[i].children| == 1
    ensures skin.height == 64 ==> |root.children[i].children| == 2
  {
    PlayerModelShape(skin, cape, SkinTexture.TextureVersion(skin.height), slim, optifine, T, root, i);
  }
}
