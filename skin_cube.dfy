/** One textured cuboid of the skin model: each of its six faces samples a
    rectangle of the texture atlas, normalised to UV space, optionally
    flipped, and split into two triangles. */
module SkinCube {
  import opened Js

  datatype Face = Right | Left | Top | Bottom | Front | Back

  /** The order in which faces are filled: face i owns triangles 2i, 2i+1. */
  const FaceOrder: seq<Face> := [Right, Left, Top, Bottom, Front, Back]

  /** A face's atlas rectangle in pixels, with the slim-arm overrides `sx`
      and `sw` (`None` when absent) and the two flip flags. */
  datatype FaceUv = FaceUv(x: int, y: int, w: int, h: int,
                           sx: Option<int>, sw: Option<int>,
                           flipX: bool, flipY: bool)

  /** The per-face rectangles of one body part (a property may be missing). */
  type FaceTable = map<Face, FaceUv>

  /** The pixel size of a loaded texture image. */
  datatype TexSize = TexSize(width: int, height: int)

  predicate Loaded(t: TexSize)
  {
    t.width > 0 && t.height > 0
  }

  datatype Vec2 = Vec2(u: real, v: real)

  datatype Triangle = Triangle(a: Vec2, b: Vec2, c: Vec2)

  datatype Side = FrontSide | DoubleSide

  /** The mesh `createCube` returns, reduced to what the model observes. */
  datatype CubeMesh = CubeMesh(
    name: string,
    width: real, height: real, depth: real,
    transparent: bool,
    side: Side,
    alphaTest: real,
    castShadow: bool,
    receiveShadow: bool,
    uvs: seq<Triangle>)

  /** An override replaces the base value only for slim cubes, and only when
      it is truthy: an override of 0 is ignored. */
  function Pick(slim: bool, override: Option<int>, base: int): int
  {
    if slim && override.Some? && override.value != 0 then override.value else base
  }

  /** The four corners of a face before any flip: bottom-left, top-left,
      top-right, bottom-right of the rectangle, in atlas-normalised units. */
  function Corners(f: FaceUv, slim: bool, tex: TexSize): (c: seq<Vec2>)
    requires Loaded(tex)
    ensures |c| == 4
  {
    var W := tex.width as real;
    var H := tex.height as real;
    var x := Pick(slim, f.sx, f.x) as real;
    var w := Pick(slim, f.sw, f.w) as real;
    var tx1 := x / W;
    var ty1 := f.y as real / H;
    var tx2 := (x + w) / W;
    var ty2 := (f.y + f.h) as real / H;
    [Vec2(tx1, ty2), Vec2(tx1, ty1), Vec2(tx2, ty1), Vec2(tx2, ty2)]
  }

  /** `flipY`: swap the two halves of the corner list. */
  function FlipY<T>(c: seq<T>): (r: seq<T>)
    requires |c| == 4
    ensures |r| == 4
  {
    [c[2], c[3], c[0], c[1]]
  }

  /** `flipX`: reverse the corner list. */
  function FlipX<T>(c: seq<T>): (r: seq<T>)
    requires |c| == 4
    ensures |r| == 4
  {
    [c[3], c[2], c[1], c[0]]
  }

  /** A face's corners after its flips, `flipY` first. */
  function FaceCorners(f: FaceUv, slim: bool, tex: TexSize): (c: seq<Vec2>)
    requires Loaded(tex)
    ensures |c| == 4
  {
    var c0 := Corners(f, slim, tex);
    var c1 := if f.flipY then FlipY(c0) else c0;
    if f.flipX then FlipX(c1) else c1
  }

  /** Triangle k (0 or 1) of a face with corners `c`: both share the
      diagonal c1-c3. */
  function FaceTriangle(c: seq<Vec2>, k: int): Triangle
    requires |c| == 4 && 0 <= k < 2
  {
    if k == 0 then Triangle(c[0], c[1], c[3]) else Triangle(c[1], c[2], c[3])
  }

  predicate HasAllFaces(t: FaceTable)
  {
    forall i :: 0 <= i < |FaceOrder| ==> FaceOrder[i] in t
  }

  /** The twelve UV triangles of a cube: triangle n belongs to face n / 2. */
  function CubeUvs(t: FaceTable, slim: bool, tex: TexSize): (r: seq<Triangle>)
    requires Loaded(tex) && HasAllFaces(t)
    ensures |r| == 2 * |FaceOrder|
  {
    seq(2 * |FaceOrder|, n requires 0 <= n < 2 * |FaceOrder| =>
      FaceTriangle(FaceCorners(t[FaceOrder[n / 2]], slim, tex), n % 2))
  }

  /** What `createCube` produces: a `TypeError` when the face table is
      `undefined` or lacks a face, otherwise the mesh. Transparent cubes are
      drawn from both sides, opaque ones from the front only. */
  function Cube(tex: TexSize, width: real, height: real, depth: real,
                table: Option<FaceTable>, slim: bool, name: string, transparent: bool): (r: Result<CubeMesh>)
    requires Loaded(tex)
    ensures r.Ok? <==> table.Some? && HasAllFaces(table.value)
    ensures r.Err? ==> r.error == TypeError
    ensures r.Ok? ==>
      && r.value.name == name
      && r.value.width == width && r.value.height == height && r.value.depth == depth
      && r.value.transparent == transparent
      && (r.value.side == DoubleSide <==> transparent)
      && |r.value.uvs| == 12
    ensures r.Ok? ==> r.value.uvs == CubeUvs(table.value, slim, tex)
  {
    if table.None? || !HasAllFaces(table.value) then Err(TypeError)
    else Ok(CubeMesh(name, width, height, depth, transparent,
                     if transparent then DoubleSide else FrontSide,
                     0.5, true, false, CubeUvs(table.value, slim, tex)))
  }

  // ---------------------------------------------------------------------------
  // The imperative construction
  // ---------------------------------------------------------------------------

  /** The in-place `flipY` on a face's four-element corner array. */
  method FlipYInPlace(c: array<Vec2>)
    requires c.Length == 4
    modifies c
    ensures c[..] == FlipY(old(c[..]))
  {
    var temp := c[..];
    c[0] := temp[2];
    c[1] := temp[3];
    c[2] := temp[0];
    c[3] := temp[1];
  }

  /** The in-place `flipX` on a face's four-element corner array. */
  method FlipXInPlace(c: array<Vec2>)
    requires c.Length == 4
    modifies c
    ensures c[..] == FlipX(old(c[..]))
  {
    var temp := c[..];
    c[0] := temp[3];
    c[1] := temp[2];
    c[2] := temp[1];
    c[3] := temp[0];
  }

  /** One iteration of the first loop of `createCube`: the face's corner
      array, flipped in place as its flags ask. */
  method FillFaceCorners(face: FaceUv, slim: bool, tex: TexSize) returns (corners: seq<Vec2>)
    requires Loaded(tex)
    ensures corners == FaceCorners(face, slim, tex)
  {
    var start := Corners(face, slim, tex);
    var c := new Vec2[4];
    c[0], c[1], c[2], c[3] := start[0], start[1], start[2], start[3];
    assert c[..] == start;
    if face.flipY {
      FlipYInPlace(c);
    }
    if face.flipX {
      FlipXInPlace(c);
    }
    corners := c[..];
  }

  /** `createCube`: fill the per-face corner arrays, then write two
      triangles per face into the geometry's UV list. */
  method CreateCube(tex: TexSize, width: real, height: real, depth: real,
                    table: Option<FaceTable>, slim: bool, name: string, transparent: bool)
    returns (r: Result<CubeMesh>)
    requires Loaded(tex)
    ensures r == Cube(tex, width, height, depth, table, slim, name, transparent)
  {
    var faceUvs := new seq<Vec2>[6];
    for i := 0 to 6
      invariant 0 < i ==> table.Some?
      invariant forall k :: 0 <= k < i ==> FaceOrder[k] in table.value
      invariant forall k :: 0 <= k < i ==> faceUvs[k] == FaceCorners(table.value[FaceOrder[k]], slim, tex)
    {
      if table.None? || FaceOrder[i] !in table.value {
        // reading a property of `undefined`
        return Err(TypeError);
      }
      faceUvs[i] := FillFaceCorners(table.value[FaceOrder[i]], slim, tex);
    }
    var t := table.value;
    assert HasAllFaces(t);
    var uvs := WriteTriangles(faceUvs[..], t, slim, tex);
    r := Ok(CubeMesh(name, width, height, depth, transparent,
                     if transparent then DoubleSide else FrontSide,
                     0.5, true, false, uvs));
  }

  /** The second loop of `createCube`: two triangles per face, written into
      the twelve-entry UV list. */
  method WriteTriangles(faceUvs: seq<seq<Vec2>>, t: FaceTable, slim: bool, tex: TexSize)
    returns (r: seq<Triangle>)
    requires Loaded(tex) && HasAllFaces(t) && |faceUvs| == 6
    requires forall k :: 0 <= k < 6 ==> faceUvs[k] == FaceCorners(t[FaceOrder[k]], slim, tex)
    ensures r == CubeUvs(t, slim, tex)
  {
    var uvs := new Triangle[12];
    var j := 0;
    for i := 0 to 6
      invariant j == 2 * i
      invariant forall f :: 0 <= f < i ==>
        uvs[2 * f] == FaceTriangle(faceUvs[f], 0) && uvs[2 * f + 1] == FaceTriangle(faceUvs[f], 1)
    {
      var c := faceUvs[i];
      uvs[j] := Triangle(c[0], c[1], c[3]);
      uvs[j + 1] := Triangle(c[1], c[2], c[3]);
      j := j + 2;
    }
    TrianglesInFaceOrder(uvs[..], t, slim, tex);
    r := uvs[..];
  }

  /** Two triangles per face, in face order, make up the cube's UV list. */
  lemma TrianglesInFaceOrder(uvs: seq<Triangle>, t: FaceTable, slim: bool, tex: TexSize)
    requires Loaded(tex) && HasAllFaces(t) && |uvs| == 12
    requires forall f :: 0 <= f < 6 ==>
      && uvs[2 * f] == FaceTriangle(FaceCorners(t[FaceOrder[f]], slim, tex), 0)
      && uvs[2 * f + 1] == FaceTriangle(FaceCorners(t[FaceOrder[f]], slim, tex), 1)
    ensures uvs == CubeUvs(t, slim, tex)
  {
    var expected := CubeUvs(t, slim, tex);
    forall n | 0 <= n < 12
      ensures uvs[n] == expected[n]
    {
      var f := n / 2;
      assert n == 2 * f + n % 2;
    }
  }

  // ---------------------------------------------------------------------------
  // Properties of the UV mapping
  // ---------------------------------------------------------------------------

  /** Each flip undoes itself. */
  lemma {:induction false} FlipsAreInvolutions<T>(c: seq<T>)
    requires |c| == 4
    ensures FlipY(FlipY(c)) == c
    ensures FlipX(FlipX(c)) == c
  {
    assert FlipY(FlipY(c)) == [c[0], c[1], c[2], c[3]];
    assert FlipX(FlipX(c)) == [c[0], c[1], c[2], c[3]];
  }

  /** The two flips commute, and together they swap neighbouring corners:
      [c0,c1,c2,c3] becomes [c1,c0,c3,c2]. */
  lemma {:induction false} FlipsCommute<T>(c: seq<T>)
    requires |c| == 4
    ensures FlipX(FlipY(c)) == FlipY(FlipX(c))
    ensures FlipX(FlipY(c)) == [c[1], c[0], c[3], c[2]]
  {
  }

  /** `flipX` is a reversal, not a rotation: it differs from rotating the
      corners by one position whenever the corners are distinct. */
  lemma FlipXIsNotARotation<T>(c: seq<T>)
    requires |c| == 4 && c[0] != c[2] && c[1] != c[3]
    ensures FlipX(c) != [c[3], c[0], c[1], c[2]]
    ensures FlipX(c) != [c[1], c[2], c[3], c[0]]
  {
    assert FlipX(c)[1] == c[2] && [c[3], c[0], c[1], c[2]][1] == c[0];
    assert FlipX(c)[0] == c[3] && [c[1], c[2], c[3], c[0]][0] == c[1];
  }

  /** `flipY` only reorders the corners. */
  lemma {:induction false} FlipYPermutes<T>(c: seq<T>)
    requires |c| == 4
    ensures multiset(FlipY(c)) == multiset(c)
  {
    calc {
      multiset(FlipY(c));
      { assert FlipY(c) == c[2..] + c[..2]; }
      multiset(c[2..]) + multiset(c[..2]);
      { assert c == c[..2] + c[2..]; }
      multiset(c);
    }
  }

  /** `flipX` only reorders the corners. */
  lemma {:induction false} FlipXPermutes<T>(c: seq<T>)
    requires |c| == 4
    ensures multiset(FlipX(c)) == multiset(c)
  {
    calc {
      multiset(FlipX(c));
      { assert FlipX(c) == [c[3]] + [c[2]] + [c[1]] + [c[0]]; }
      multiset{c[3]} + multiset{c[2]} + multiset{c[1]} + multiset{c[0]};
      multiset{c[0]} + multiset{c[1]} + multiset{c[2]} + multiset{c[3]};
      { assert c == [c[0]] + [c[1]] + [c[2]] + [c[3]]; }
      multiset(c);
    }
  }

  /** Round trip: the unflipped corners, scaled back by the atlas size, are
      exactly the face's pixel rectangle (with the slim overrides applied). */
  lemma {:induction false} UnflippedCornersRecoverRectangle(f: FaceUv, slim: bool, tex: TexSize)
    requires Loaded(tex) && !f.flipX && !f.flipY
    ensures var c := FaceCorners(f, slim, tex);
            var W := tex.width as real;
            var H := tex.height as real;
            var x := Pick(slim, f.sx, f.x) as real;
            var w := Pick(slim, f.sw, f.w) as real;
            && c[0].u * W == x && c[0].v * H == (f.y + f.h) as real
            && c[1].u * W == x && c[1].v * H == f.y as real
            && c[2].u * W == x + w && c[2].v * H == f.y as real
            && c[3].u * W == x + w && c[3].v * H == (f.y + f.h) as real
  {
    var W := tex.width as real;
    var H := tex.height as real;
    var x := Pick(slim, f.sx, f.x) as real;
    var w := Pick(slim, f.sw, f.w) as real;
    DivMul(x, W);
    DivMul(x + w, W);
    DivMul(f.y as real, H);
    DivMul((f.y + f.h) as real, H);
  }

  lemma DivMul(a: real, b: real)
    requires b != 0.0
    ensures (a / b) * b == a
  {
  }

  /** Flipping never changes which corners a face uses, only their order. */
  lemma FlipsKeepCorners(f: FaceUv, slim: bool, tex: TexSize)
    requires Loaded(tex)
    ensures multiset(FaceCorners(f, slim, tex)) == multiset(Corners(f, slim, tex))
  {
    var c0 := Corners(f, slim, tex);
    FlipYPermutes(c0);
    FlipXPermutes(c0);
    FlipXPermutes(FlipY(c0));
  }

  /** An override of 0 counts as absent, and overrides never apply to a
      cube that is not slim. */
  lemma {:induction false} OverridesNeedSlimAndTruthy(f: FaceUv, slim: bool, tex: TexSize)
    requires Loaded(tex)
    requires !slim || (f.sx in {None, Some(0)} && f.sw in {None, Some(0)})
    ensures Corners(f, slim, tex) == Corners(f.(sx := None, sw := None), false, tex)
  {
    assert Pick(slim, f.sx, f.x) == f.x;
    assert Pick(slim, f.sw, f.w) == f.w;
  }

  /** Triangulation: face i of the fixed order yields triangles 2i and
      2i+1, [c0,c1,c3] and [c1,c2,c3] of that face's (flipped) corners. */
  lemma {:induction false} CubeTrianglesPerFace(t: FaceTable, slim: bool, tex: TexSize, i: int)
    requires Loaded(tex) && HasAllFaces(t) && 0 <= i < 6
    ensures var c := FaceCorners(t[FaceOrder[i]], slim, tex);
            var uvs := CubeUvs(t, slim, tex);
            && |uvs| == 12
            && uvs[2 * i] == Triangle(c[0], c[1], c[3])
            && uvs[2 * i + 1] == Triangle(c[1], c[2], c[3])
  {
    assert (2 * i) / 2 == i && (2 * i) % 2 == 0;
    assert (2 * i + 1) / 2 == i && (2 * i + 1) % 2 == 1;
  }

  /** Without flips, the two triangles of a face cover its rectangle's four
      corners: the first runs bottom-left, top-left, bottom-right, the
      second top-left, top-right, bottom-right. */
  lemma UnflippedTriangles(t: FaceTable, slim: bool, tex: TexSize, i: int)
    requires Loaded(tex) && HasAllFaces(t) && 0 <= i < 6
    requires !t[FaceOrder[i]].flipX && !t[FaceOrder[i]].flipY
    ensures var c := Corners(t[FaceOrder[i]], slim, tex);
            var uvs := CubeUvs(t, slim, tex);
            && uvs[2 * i].a.u == uvs[2 * i].b.u == c[0].u
            && uvs[2 * i].b.v == uvs[2 * i + 1].a.v == c[1].v
            && uvs[2 * i + 1].b == c[2]
            && uvs[2 * i].c == uvs[2 * i + 1].c == c[3]
  {
    CubeTrianglesPerFace(t, slim, tex, i);
  }
}
