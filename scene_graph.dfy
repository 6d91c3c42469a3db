/** Scene objects as the base renderer handles them: a tree of three.js
    objects carrying disposable geometries, materials and textures, the
    recursive `deepDisposeMesh`, and `mergeCubeMeshes`. */
module SceneGraph {
  import opened Js

  /** A geometry, material or texture; `disposable` when it has a `dispose`
      method. */
  datatype Resource = Resource(id: nat, disposable: bool)

  /** An object's `material`: absent, a single material, or an array of
      materials (an array has no `dispose` method and a single material no
      `length`). */
  datatype MaterialSlot = NoMaterial | OneMaterial(m: Resource) | MaterialList(ms: seq<Resource>)

  /** What kind of three.js object a node is. */
  datatype Kind = Group | Mesh | AmbientLight(color: int) | AxesHelper | GridHelper

  /** A scene object: its resources, its children in order, and the
      `userData.renderType` tag. */
  datatype Object3D = Object3D(
    kind: Kind,
    geometry: Option<Resource>,
    material: MaterialSlot,
    texture: Option<Resource>,
    children: seq<Object3D>,
    renderType: Option<string>)

  /** The light `initLight` adds: a soft white ambient light. */
  const SoftWhite := 0xF0F0F0

  function Light(): (o: Object3D)
    ensures o.kind == AmbientLight(SoftWhite) && o.children == []
  {
    Object3D(AmbientLight(SoftWhite), None, NoMaterial, None, [], None)
  }

  // ---------------------------------------------------------------------------
  // deepDisposeMesh
  // ---------------------------------------------------------------------------

  /** The geometry, the single material and the texture of one node. */
  function OwnResources(o: Object3D): set<Resource>
  {
    (if o.geometry.Some? then {o.geometry.value} else {})
    + (if o.material.OneMaterial? then {o.material.m} else {})
    + (if o.texture.Some? then {o.texture.value} else {})
  }

  /** The `dispose` calls on one node's own resources: geometry, material,
      texture, each only when present and disposable. */
  function OwnDisposals(o: Object3D): (r: seq<Resource>)
    ensures forall x :: x in r <==> x in OwnResources(o) && x.disposable
  {
    (if o.geometry.Some? && o.geometry.value.disposable then [o.geometry.value] else [])
    + (if o.material.OneMaterial? && o.material.m.disposable then [o.material.m] else [])
    + (if o.texture.Some? && o.texture.value.disposable then [o.texture.value] else [])
  }

  /** Every single resource in the tree. */
  function Resources(o: Object3D): set<Resource>
    decreases o, 1
  {
    OwnResources(o) + ResourcesEach(o.children)
  }

  function ResourcesEach(cs: seq<Object3D>): set<Resource>
    decreases cs, 0
  {
    if cs == [] then {} else ResourcesEach(cs[..|cs| - 1]) + Resources(cs[|cs| - 1])
  }

  /** The `dispose` calls of `deepDisposeMesh(o)`, in order: the node's own
      resources first, then each child's subtree, first child first. */
  function DisposeOrder(o: Object3D): seq<Resource>
    decreases o, 1
  {
    OwnDisposals(o) + DisposeEach(o.children)
  }

  /** The `dispose` calls of disposing the trees `cs` one after another. */
  function DisposeEach(cs: seq<Object3D>): seq<Resource>
    decreases cs, 0
  {
    if cs == [] then [] else DisposeEach(cs[..|cs| - 1]) + DisposeOrder(cs[|cs| - 1])
  }

  /** What `deepDisposeMesh` leaves of a node: with `removeChildren` the node
      has no children left; without it the tree is unchanged. */
  function Stripped(o: Object3D, removeChildren: bool): Object3D
  {
    if removeChildren then o.(children := []) else o
  }

  /** Disposal reaches exactly the disposable single resources of the tree:
      a material array, having no `dispose`, is never disposed as such. */
  lemma {:induction false} DisposesExactlyDisposable(o: Object3D)
    ensures forall x :: x in DisposeOrder(o) <==> x in Resources(o) && x.disposable
    decreases o, 1
  {
    DisposesExactlyDisposableEach(o.children);
  }

  lemma {:induction false} DisposesExactlyDisposableEach(cs: seq<Object3D>)
    ensures forall x :: x in DisposeEach(cs) <==> x in ResourcesEach(cs) && x.disposable
    decreases cs, 0
  {
    if cs != [] {
      DisposesExactlyDisposableEach(cs[..|cs| - 1]);
      DisposesExactlyDisposable(cs[|cs| - 1]);
    }
  }

  /** Disposing trees one after another concatenates their disposals. */
  lemma DisposeEachSnoc(cs: seq<Object3D>, i: nat)
    requires i < |cs|
    ensures DisposeEach(cs[..i + 1]) == DisposeEach(cs[..i]) + DisposeOrder(cs[i])
  {
    assert cs[..i + 1][..i] == cs[..i];
  }

  /** `deepDisposeMesh(obj, removeChildren)`: nothing for `null`; otherwise
      dispose the node's own resources, recurse into every child, then (with
      `removeChildren`) remove the children from last to first. Returns the
      node as it is left and the `dispose` calls made. */
  method DeepDisposeMesh(obj: Option<Object3D>, removeChildren: bool) returns (r: Option<Object3D>, disposed: seq<Resource>)
    ensures obj.None? ==> r.None? && disposed == []
    ensures obj.Some? ==> r == Some(Stripped(obj.value, removeChildren)) && disposed == DisposeOrder(obj.value)
  {
    if obj.None? {
      return None, [];
    }
    var o;
    o, disposed := DisposeNode(obj.value, removeChildren);
    r := Some(o);
  }

  method DisposeNode(o: Object3D, removeChildren: bool) returns (r: Object3D, disposed: seq<Resource>)
    ensures r == Stripped(o, removeChildren) && disposed == DisposeOrder(o)
    decreases o, 1
  {
    disposed := DisposeOwn(o);
    var d := DisposeChildren(o.children, removeChildren);
    disposed := disposed + d;
    var kids := o.children;
    if removeChildren {
      kids := RemoveChildren(kids);
    }
    r := o.(children := kids);
  }

  /** The node's own `dispose` calls. */
  method DisposeOwn(o: Object3D) returns (disposed: seq<Resource>)
    ensures disposed == OwnDisposals(o)
  {
    disposed := [];
    if o.geometry.Some? && o.geometry.value.disposable {
      disposed := disposed + [o.geometry.value];
    }
    if o.material.OneMaterial? && o.material.m.disposable {
      disposed := disposed + [o.material.m];
    }
    if o.texture.Some? && o.texture.value.disposable {
      disposed := disposed + [o.texture.value];
    }
  }

  /** The recursion into every child, first to last. Each child comes back
      stripped, but a stripped child is still the same object in place, so
      only the `dispose` calls are collected. */
  method DisposeChildren(children: seq<Object3D>, removeChildren: bool) returns (disposed: seq<Resource>)
    ensures disposed == DisposeEach(children)
    decreases children, 0
  {
    disposed := [];
    for i := 0 to |children|
      invariant disposed == DisposeEach(children[..i])
    {
      var _, d := DisposeNode(children[i], removeChildren);
      DisposeEachSnoc(children, i);
      disposed := disposed + d;
    }
    assert children[..|children|] == children;
  }

  /** `obj.remove(children[i])` from the last child to the first. */
  method RemoveChildren(children: seq<Object3D>) returns (kids: seq<Object3D>)
    ensures kids == []
  {
    kids := children;
    var i := |kids| - 1;
    while i >= 0
      invariant -1 <= i < |children|
      invariant kids == children[..i + 1]
    {
      kids := kids[..i];
      i := i - 1;
    }
  }

  // ---------------------------------------------------------------------------
  // mergeCubeMeshes
  // ---------------------------------------------------------------------------

  /** One `merge` into the combined geometry: the cube's geometry and the
      material-index offset passed along with it. */
  datatype MergeCall = MergeCall(geometry: Option<Resource>, offset: Number)

  /** The result of `mergeCubeMeshes`: the merges in order, the combined
      material array, and whether a buffer geometry was requested. */
  datatype Merged = Merged(merges: seq<MergeCall>, materials: seq<Resource>, buffer: bool)

  /** `cubes.filter(c => !!c)`: the cubes that are present, in order. */
  function Present(cubes: seq<Option<Object3D>>): (r: seq<Object3D>)
    ensures |r| <= |cubes|
    ensures forall c :: c in r <==> Some(c) in cubes
  {
    if cubes == [] then []
    else Present(cubes[..|cubes| - 1]) + (if cubes[|cubes| - 1].Some? then [cubes[|cubes| - 1].value] else [])
  }

  /** Filtering keeps the order: the present cubes of a concatenation are
      those of the first part followed by those of the second. */
  lemma {:induction false} PresentAppend(a: seq<Option<Object3D>>, b: seq<Option<Object3D>>)
    ensures Present(a + b) == Present(a) + Present(b)
  {
    if b == [] {
      assert a + b == a;
    } else {
      var init := b[..|b| - 1];
      assert (a + b)[..|a + b| - 1] == a + init;
      assert (a + b)[|a + b| - 1] == b[|b| - 1];
      PresentAppend(a, init);
    }
  }

  /** One slot is kept exactly when it holds a cube. */
  lemma PresentSingle(o: Option<Object3D>)
    ensures Present([o]) == (if o.Some? then [o.value] else [])
  {
    assert [o][..0] == [];
  }

  /** `cube.material.length`: a number for an array; `undefined` for a single
      material; reading it throws when there is no material. */
  function MaterialCount(slot: MaterialSlot): Result<Option<nat>>
  {
    match slot
    case NoMaterial => Err(TypeError)
    case OneMaterial(_) => Ok(None)
    case MaterialList(ms) => Ok(Some(|ms|))
  }

  /** `i * Math.max(length, 1)`: `NaN` when the length is `undefined`. */
  function AsWrittenOffset(i: nat, count: Option<nat>): (r: Number)
    ensures r.Finite? <==> count.Some?
  {
    if count.None? then NonFinite
    else Finite((i * (if count.value > 1 then count.value else 1)) as real)
  }

  /** The merges of `cubes` as written, cube `i` at offset `i * max(length, 1)`. */
  function Merges(cs: seq<Object3D>): (r: seq<MergeCall>)
    ensures |r| == |cs|
  {
    if cs == [] then []
    else
      var i := |cs| - 1;
      var count := MaterialCount(cs[i].material);
      Merges(cs[..i]) + [MergeCall(cs[i].geometry, AsWrittenOffset(i, if count.Ok? then count.value else None))]
  }

  lemma MergesSnoc(cs: seq<Object3D>, i: nat)
    requires i < |cs| && MaterialCount(cs[i].material).Ok?
    ensures Merges(cs[..i + 1]) == Merges(cs[..i]) + [MergeCall(cs[i].geometry, AsWrittenOffset(i, MaterialCount(cs[i].material).value))]
  {
    assert cs[..i + 1][..i] == cs[..i];
  }

  /** Cube `i` is merged with its geometry at offset `i * max(length, 1)`. */
  lemma {:induction false} MergeOfCube(cs: seq<Object3D>, i: nat)
    requires i < |cs| && MaterialCount(cs[i].material).Ok?
    ensures Merges(cs)[i] == MergeCall(cs[i].geometry, AsWrittenOffset(i, MaterialCount(cs[i].material).value))
  {
    if i < |cs| - 1 {
      MergeOfCube(cs[..|cs| - 1], i);
    }
  }

  /** The materials an array contributes (a single material contributes
      none: the copy loop never runs). */
  function Listed(slot: MaterialSlot): seq<Resource>
  {
    if slot.MaterialList? then slot.ms else []
  }

  /** The combined material array: each cube's array in input order. */
  function ConcatMaterials(cs: seq<Object3D>): seq<Resource>
  {
    if cs == [] then [] else ConcatMaterials(cs[..|cs| - 1]) + Listed(cs[|cs| - 1].material)
  }

  /** The number of leading cubes that have a material (all of them unless
      one lacks it, which throws). */
  function Reached(cs: seq<Object3D>): (n: nat)
    ensures n <= |cs|
    ensures forall k :: 0 <= k < n ==> !cs[k].material.NoMaterial?
    ensures n < |cs| ==> cs[n].material.NoMaterial?
  {
    if cs == [] then 0
    else
      var n := Reached(cs[..|cs| - 1]);
      if n < |cs| - 1 then n
      else if cs[|cs| - 1].material.NoMaterial? then |cs| - 1
      else |cs|
  }

  /** A cube without a material after `i` cubes with one stops the walk. */
  lemma ReachedStops(cs: seq<Object3D>, i: nat)
    requires i < |cs| && Reached(cs[..i]) == i && cs[i].material.NoMaterial?
    ensures Reached(cs) == i
  {
    forall k | 0 <= k < i
      ensures !cs[k].material.NoMaterial?
    {
      assert cs[..i][k] == cs[k];
    }
  }

  lemma ReachedGoesOn(cs: seq<Object3D>, i: nat)
    requires i < |cs| && Reached(cs[..i]) == i && !cs[i].material.NoMaterial?
    ensures Reached(cs[..i + 1]) == i + 1
  {
    assert cs[..i + 1][..i] == cs[..i];
  }

  lemma ConcatSnoc(cs: seq<Object3D>, i: nat)
    requires i < |cs|
    ensures ConcatMaterials(cs[..i + 1]) == ConcatMaterials(cs[..i]) + Listed(cs[i].material)
  {
    assert cs[..i + 1][..i] == cs[..i];
  }

  /** `mergeCubeMeshes(cubes, toBuffer)` as written: drop the absent cubes;
      merge cube `i` at offset `i * max(length, 1)`, append its materials
      and deep-dispose it. A cube without a material throws, after the cubes
      before it have been merged and disposed. Returns the result and the
      `dispose` calls made. */
  method MergeCubeMeshes(cubes: seq<Option<Object3D>>, toBuffer: bool) returns (r: Result<Merged>, disposed: seq<Resource>)
    ensures var cs := Present(cubes);
      && (r.Ok? <==> Reached(cs) == |cs|)
      && disposed == DisposeEach(cs[..Reached(cs)])
    ensures r.Ok? ==>
      var cs := Present(cubes);
      && r.value.buffer == toBuffer
      && r.value.materials == ConcatMaterials(cs)
      && |r.value.merges| == |cs|
      && r.value.merges == Merges(cs)
  {
    var cs := Present(cubes);
    var merges: seq<MergeCall> := [];
    var materials: seq<Resource> := [];
    disposed := [];
    for i := 0 to |cs|
      invariant Reached(cs[..i]) == i
      invariant materials == ConcatMaterials(cs[..i])
      invariant disposed == DisposeEach(cs[..i])
      invariant merges == Merges(cs[..i])
    {
      var count := MaterialCount(cs[i].material);
      if count.Err? {
        ReachedStops(cs, i);
        return Err(count.error), disposed;
      }
      ReachedGoesOn(cs, i);
      var offset := AsWrittenOffset(i, count.value);
      merges := merges + [MergeCall(cs[i].geometry, offset)];
      MergesSnoc(cs, i);
      materials := PushAll(materials, Listed(cs[i].material));
      ConcatSnoc(cs, i);
      var _, d := DeepDisposeMesh(Some(cs[i]), true);
      DisposeEachSnoc(cs, i);
      disposed := disposed + d;
    }
    assert cs[..|cs|] == cs;
    r := Ok(Merged(merges, materials, toBuffer));
  }

  /** `for (j = 0; j < list.length; j++) materials.push(list[j])`. */
  method PushAll(materials: seq<Resource>, list: seq<Resource>) returns (r: seq<Resource>)
    ensures r == materials + list
  {
    r := materials;
    for j := 0 to |list|
      invariant r == materials + list[..j]
    {
      r := r + [list[j]];
    }
    assert list[..|list|] == list;
  }

  // ---------------------------------------------------------------------------
  // Material offsets
  // ---------------------------------------------------------------------------

  /** Where cube `i`'s materials start in the combined array: the number of
      materials of the cubes before it. */
  function CumulativeOffset(cs: seq<Object3D>, i: nat): nat
    requires i <= |cs|
  {
    |ConcatMaterials(cs[..i])|
  }

  /** With offsets counted cumulatively, local material `k` of cube `i` is
      entry `offset + k` of the combined array: every face keeps its own
      material. */
  lemma CumulativeOffsetsIndexOwnMaterials(cs: seq<Object3D>, i: nat, k: nat)
    requires i < |cs| && k < |Listed(cs[i].material)|
    ensures CumulativeOffset(cs, i) + k < |ConcatMaterials(cs)|
    ensures ConcatMaterials(cs)[CumulativeOffset(cs, i) + k] == Listed(cs[i].material)[k]
  {
    var before := ConcatMaterials(cs[..i]);
    var through := ConcatMaterials(cs[..i + 1]);
    ConcatSnoc(cs, i);
    assert through == before + Listed(cs[i].material);
    ConcatPrefix(cs, i + 1, |cs|);
    assert cs[..|cs|] == cs;
    assert through <= ConcatMaterials(cs);
    assert through[|before| + k] == Listed(cs[i].material)[k];
  }

  /** The combined array of a prefix of the cubes is a prefix of the whole. */
  lemma {:induction false} ConcatPrefix(cs: seq<Object3D>, i: nat, n: nat)
    requires i <= n <= |cs|
    ensures ConcatMaterials(cs[..i]) <= ConcatMaterials(cs[..n])
    decreases n - i
  {
    if i < n {
      ConcatPrefix(cs, i, n - 1);
      ConcatSnoc(cs, n - 1);
    }
  }

  /** When every cube has the same number `m >= 1` of materials, the offsets
      as written are the cumulative ones. */
  lemma {:induction false} EqualCountsAgree(cs: seq<Object3D>, m: nat, i: nat)
    requires m >= 1 && i <= |cs|
    requires forall k :: 0 <= k < |cs| ==> |Listed(cs[k].material)| == m
    ensures CumulativeOffset(cs, i) == i * m
  {
    if i > 0 {
      EqualCountsAgree(cs, m, i - 1);
      ConcatSnoc(cs, i - 1);
      assert |Listed(cs[i - 1].material)| == m;
      assert (i - 1) * m + m == i * m;
    }
  }

  /** Two cubes with two and one materials: the second cube's offset as
      written is 1, so its face with local material 0 shows the first
      cube's second material instead of its own. */
  lemma UnequalCountsMisindex(a: Resource, b: Resource, c: Resource, g: Option<Resource>)
    requires a != b && b != c
    ensures var cube1 := Object3D(Mesh, g, MaterialList([a, b]), None, [], None);
      var cube2 := Object3D(Mesh, g, MaterialList([c]), None, [], None);
      var cs := [cube1, cube2];
      && AsWrittenOffset(1, MaterialCount(cube2.material).value) == Finite(1.0)
      && ConcatMaterials(cs) == [a, b, c]
      && ConcatMaterials(cs)[1] != Listed(cube2.material)[0]
      && CumulativeOffset(cs, 1) == 2
      && ConcatMaterials(cs)[CumulativeOffset(cs, 1)] == Listed(cube2.material)[0]
  {
    var cube1 := Object3D(Mesh, g, MaterialList([a, b]), None, [], None);
    var cube2 := Object3D(Mesh, g, MaterialList([c]), None, [], None);
    var cs := [cube1, cube2];
    assert ConcatMaterials([]) == [];
    assert [cube1][..0] == [];
    assert ConcatMaterials([cube1]) == [a, b];
    assert cs[..1] == [cube1];
    assert ConcatMaterials(cs) == [a, b] + [c];
  }
}
