/** IBOCube: a unit cube drawn from an index buffer. Its eight corner
    positions (cubeVerts) are fixed, its 36 indices come from Cube(0, ..., 7),
    every vertex gets the same colour, and back faces are culled when it is
    drawn. The GL calls that upload the arrays are not modelled; the arrays
    they are handed are. */
module IBOCube {
  import opened Geometry
  import opened Winding
  import opened Primitives
  import RenderFlags

  /** cubeVerts: the corners of the unit cube, three floats per vertex. */
  const CubeVerts: seq<real> := [
    0.0, 0.0, 0.0,
    1.0, 0.0, 0.0,
    1.0, 1.0, 0.0,
    0.0, 1.0, 0.0,
    0.0, 0.0, 1.0,
    0.0, 1.0, 1.0,
    1.0, 1.0, 1.0,
    1.0, 0.0, 1.0
  ]

  /** The number of vertices in the position buffer. */
  const VertexCount: nat := 8

  lemma VertexCountMatches()
    ensures |CubeVerts| == 3 * VertexCount
  {
  }

  /** The count both glDrawElements calls pass: 6 quads * 2 triangles * 3 indices. */
  const DrawCount: nat := 36

  /** The number of unsigned ints the index upload copies (36 * sizeof(unsigned int) bytes). */
  const UploadedIndexCount: nat := 36

  /** The cube whose quads the index buffer is read from. */
  function UnitCube(): Cube
  {
    MakeCube(0, 1, 2, 3, 4, 5, 6, 7)
  }

  /** setIndexBufferData: entry 6i + k is index k of quad i of Cube(0..7),
      faces[0] then faces[1]. Every entry names one of the eight vertices of
      the position buffer, and the draw count is exactly the number of
      indices uploaded. */
  function SetIndexBufferData(): (cubeIndices: seq<int>)
    ensures |cubeIndices| == DrawCount == UploadedIndexCount
    ensures forall i, k :: 0 <= i < 6 && 0 <= k < 6 ==> cubeIndices[6 * i + k] == QuadIndices(UnitCube().quads[i])[k]
    ensures forall n :: 0 <= n < |cubeIndices| ==> 0 <= cubeIndices[n] < VertexCount
  {
    CubeIndicesLayout(UnitCube());
    UnitCubeInRange();
    CubeIndices(UnitCube())
  }

  /** Cube(0..7)'s index list written out, quad by quad. */
  const UnitCubeIndices: seq<int> :=
    [0, 3, 2, 1, 0, 2] + [1, 2, 6, 7, 1, 6] + [7, 6, 5, 4, 7, 5] +
    [4, 5, 3, 0, 4, 3] + [7, 4, 0, 1, 7, 0] + [5, 6, 2, 3, 5, 2]

  lemma UnitCubeTable()
    ensures CubeIndices(UnitCube()) == UnitCubeIndices
  {
    CubeTable(0, 1, 2, 3, 4, 5, 6, 7);
  }

  /** Every index of Cube(0..7) names one of the eight vertices. */
  lemma UnitCubeInRange()
    ensures forall n :: 0 <= n < 36 ==> 0 <= CubeIndices(UnitCube())[n] < VertexCount
  {
    UnitCubeTable();
  }

  /** setCubeColors: 24 floats, every one of the 8 vertices given the same colour. */
  function SetCubeColors(color: Vec3<real>): (cubeColors: seq<real>)
    ensures |cubeColors| == 3 * VertexCount
    ensures forall n :: 0 <= n < |cubeColors| ==> cubeColors[n] == color.Component(n % 3)
  {
    var points := Repeat(color, VertexCount);
    var cubeColors := Flatten(points);
    assert forall n :: 0 <= n < |cubeColors| ==> cubeColors[n] == color.Component(n % 3) by {
      forall n | 0 <= n < |cubeColors|
        ensures cubeColors[n] == color.Component(n % 3)
      {
        var i, c := n / 3, n % 3;
        assert n == 3 * i + c;
        assert points[i] == color;
      }
    }
    cubeColors
  }

  function Sub(p: Vec3<real>, q: Vec3<real>): Vec3<real>
  {
    Vec3(p.x - q.x, p.y - q.y, p.z - q.z)
  }

  function Cross(p: Vec3<real>, q: Vec3<real>): Vec3<real>
  {
    Vec3(p.y * q.z - p.z * q.y, p.z * q.x - p.x * q.z, p.x * q.y - p.y * q.x)
  }

  function Dot(p: Vec3<real>, q: Vec3<real>): real
  {
    p.x * q.x + p.y * q.y + p.z * q.z
  }

  /** Triangle p0, p1, p2 of a convex solid around centre is counter-clockwise
      seen from outside: its right-hand normal points away from the centre. */
  predicate CounterClockwiseFromOutside(p0: Vec3<real>, p1: Vec3<real>, p2: Vec3<real>, centre: Vec3<real>)
  {
    Dot(Cross(Sub(p1, p0), Sub(p2, p0)), Sub(p0, centre)) > 0.0
  }

  const Centre: Vec3<real> := Vec3(0.5, 0.5, 0.5)

  /** The position of vertex i of the position buffer. */
  function Corner(i: int): Vec3<real>
    requires 0 <= i < VertexCount
  {
    Vec3(CubeVerts[3 * i], CubeVerts[3 * i + 1], CubeVerts[3 * i + 2])
  }

  /** The winding of the index table: placed on cubeVerts, each of the 12
      triangles is counter-clockwise seen from outside the cube, which is what
      OpenGL's default front face expects, so culling back faces hides only
      faces turned away from the camera. */
  lemma CubeFacesOutward()
    ensures var ibo := SetIndexBufferData();
      forall t :: 0 <= t < 12 ==>
        CounterClockwiseFromOutside(Corner(ibo[3 * t]), Corner(ibo[3 * t + 1]), Corner(ibo[3 * t + 2]), Centre)
  {
    var ibo := SetIndexBufferData();
    UnitCubeTable();
    UnitCubeTriangles();
    forall t | 0 <= t < 12
      ensures CounterClockwiseFromOutside(Corner(ibo[3 * t]), Corner(ibo[3 * t + 1]), Corner(ibo[3 * t + 2]), Centre)
    {
      var tri := Triangles(UnitCubeIndices)[t];
      assert tri == (ibo[3 * t], ibo[3 * t + 1], ibo[3 * t + 2]);
      assert tri in UnitCubeTriangleTable;
      TableTriangleOutward(tri.0, tri.1, tri.2);
    }
  }

  /** The corner triples of a triangle list, one per whole triangle. */
  function Triangles(list: seq<int>): (ts: seq<(int, int, int)>)
    ensures |ts| == |list| / 3
  {
    seq(|list| / 3, t requires 0 <= t < |list| / 3 => (list[3 * t], list[3 * t + 1], list[3 * t + 2]))
  }

  /** The twelve triangles of Cube(0..7), those of quads 0-2 then those of quads 3-5. */
  const UnitCubeTriangleTable: seq<(int, int, int)> := FirstSidesTriangles + LastSidesTriangles

  const FirstSidesTriangles: seq<(int, int, int)> := [(0, 3, 2), (1, 0, 2), (1, 2, 6), (7, 1, 6), (7, 6, 5), (4, 7, 5)]

  const LastSidesTriangles: seq<(int, int, int)> := [(4, 5, 3), (0, 4, 3), (7, 4, 0), (1, 7, 0), (5, 6, 2), (3, 5, 2)]

  lemma UnitCubeTriangles()
    ensures Triangles(UnitCubeIndices) == UnitCubeTriangleTable
  {
  }

  /** The positions cubeVerts gives the eight vertices. */
  lemma CornerTable()
    ensures Corner(0) == Vec3(0.0, 0.0, 0.0) && Corner(1) == Vec3(1.0, 0.0, 0.0) && Corner(2) == Vec3(1.0, 1.0, 0.0) && Corner(3) == Vec3(0.0, 1.0, 0.0)
    ensures Corner(4) == Vec3(0.0, 0.0, 1.0) && Corner(5) == Vec3(0.0, 1.0, 1.0) && Corner(6) == Vec3(1.0, 1.0, 1.0) && Corner(7) == Vec3(1.0, 0.0, 1.0)
  {
  }

  lemma TableTriangleOutward(a: int, b: int, c: int)
    requires (a, b, c) in UnitCubeTriangleTable
    ensures 0 <= a < VertexCount && 0 <= b < VertexCount && 0 <= c < VertexCount
    ensures CounterClockwiseFromOutside(Corner(a), Corner(b), Corner(c), Centre)
  {
    if (a, b, c) in FirstSidesTriangles {
      FirstSidesOutward(a, b, c);
    } else {
      LastSidesOutward(a, b, c);
    }
  }

  lemma FirstSidesOutward(a: int, b: int, c: int)
    requires (a, b, c) in FirstSidesTriangles
    ensures 0 <= a < VertexCount && 0 <= b < VertexCount && 0 <= c < VertexCount
    ensures CounterClockwiseFromOutside(Corner(a), Corner(b), Corner(c), Centre)
  {
    CornerTable();
  }

  lemma LastSidesOutward(a: int, b: int, c: int)
    requires (a, b, c) in LastSidesTriangles
    ensures 0 <= a < VertexCount && 0 <= b < VertexCount && 0 <= c < VertexCount
    ensures CounterClockwiseFromOutside(Corner(a), Corner(b), Corner(c), Centre)
  {
    CornerTable();
  }

  /** With distinct vertices the index buffer is a closed, consistently
      wound surface (see Primitives.CubeClosed). */
  lemma IndexBufferClosed()
    ensures var es := ListEdges(SetIndexBufferData());
      ReverseClosed(es) && Simple(es)
  {
    assert Distinct([0, 1, 2, 3, 4, 5, 6, 7]);
    CubeClosed(0, 1, 2, 3, 4, 5, 6, 7);
  }

  /** The part of the cube's state the model keeps: render flags, the
      position getPosition reports, the translation matrix (left opaque, of
      type M), the colour array and the index array. */
  datatype CubeState<M> = CubeState(
    flags: RenderFlags.Flags,
    currentPosition: Vec3<real>,
    translationMatrix: M,
    cubeColors: seq<real>,
    cubeIndices: seq<int>)

  /** init: both render flags on, placed at position, one colour for every
      vertex, the index buffer filled. glm::translate from the identity is
      the parameter translateTo. */
  function Init<M>(position: Vec3<real>, color: Vec3<real>, translateTo: Vec3<real> -> M): (s: CubeState<M>)
    ensures s.flags == RenderFlags.Initial
    ensures GetPosition(s) == position
    ensures s.translationMatrix == translateTo(position)
    ensures s.cubeColors == SetCubeColors(color)
    ensures |s.cubeIndices| == DrawCount
    ensures s.cubeIndices == SetIndexBufferData()
  {
    CubeState(RenderFlags.Initial, position, translateTo(position), SetCubeColors(color), SetIndexBufferData())
  }

  /** Moving a freshly initialised cube with setPosition gives the cube
      initialised at the new position. */
  lemma InitThenSetPosition<M>(first: Vec3<real>, position: Vec3<real>, color: Vec3<real>, translateTo: Vec3<real> -> M)
    ensures SetPosition(Init(first, color, translateTo), position, translateTo) == Init(position, color, translateTo)
  {
  }

  /** getPosition. */
  function GetPosition<M>(s: CubeState<M>): Vec3<real>
  {
    s.currentPosition
  }

  /** setPosition: records the position and rebuilds the translation from it. */
  function SetPosition<M>(s: CubeState<M>, position: Vec3<real>, translateTo: Vec3<real> -> M): (r: CubeState<M>)
    ensures GetPosition(r) == position
    ensures r.translationMatrix == translateTo(position)
    ensures r.flags == s.flags && r.cubeColors == s.cubeColors && r.cubeIndices == s.cubeIndices
  {
    s.(currentPosition := position, translationMatrix := translateTo(position))
  }

  /** translate: composes the translation matrix with an offset (compose is
      glm::translate) but leaves the recorded position alone. */
  function Translate<M>(s: CubeState<M>, translation: Vec3<real>, compose: (M, Vec3<real>) -> M): (r: CubeState<M>)
    ensures GetPosition(r) == GetPosition(s)
    ensures r.translationMatrix == compose(s.translationMatrix, translation)
    ensures r.flags == s.flags && r.cubeColors == s.cubeColors && r.cubeIndices == s.cubeIndices
  {
    s.(translationMatrix := compose(s.translationMatrix, translation))
  }

  /** Applies translate for each offset in turn. */
  function TranslateAll<M>(s: CubeState<M>, offsets: seq<Vec3<real>>, compose: (M, Vec3<real>) -> M): CubeState<M>
    decreases |offsets|
  {
    if |offsets| == 0 then s
    else TranslateAll(Translate(s, offsets[0], compose), offsets[1..], compose)
  }

  /** However many translations are applied, getPosition still reports the
      position last set: translate never updates currentPosition. */
  lemma {:induction false} TranslationsKeepPosition<M>(s: CubeState<M>, offsets: seq<Vec3<real>>, compose: (M, Vec3<real>) -> M)
    ensures GetPosition(TranslateAll(s, offsets, compose)) == GetPosition(s)
    decreases |offsets|
  {
    if |offsets| > 0 {
      TranslationsKeepPosition(Translate(s, offsets[0], compose), offsets[1..], compose);
    }
  }

  /** After setPosition(p) and any translations, getPosition reports p. */
  lemma PositionIgnoresTranslations<M>(s: CubeState<M>, position: Vec3<real>, offsets: seq<Vec3<real>>,
                                       translateTo: Vec3<real> -> M, compose: (M, Vec3<real>) -> M)
    ensures GetPosition(TranslateAll(SetPosition(s, position, translateTo), offsets, compose)) == position
  {
    TranslationsKeepPosition(SetPosition(s, position, translateTo), offsets, compose);
  }
}
