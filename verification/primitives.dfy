/** The index tables of the mesh primitives: a Quad splits four vertex indices
    into two triangles, a Cube is six quads over eight indices, and a
    Tetrahedron is four triangular faces over four indices. Every face is a
    glm::ivec3 of vertex indices, wound so that it is drawn as a front face. */
module Primitives {
  import opened Geometry
  import opened Winding

  /** Three vertex indices of one triangle (glm::ivec3). */
  type Face = Vec3<int>

  const NoFace: Face := Vec3(0, 0, 0)

  /** The fixed-size C arrays of the constructors. */
  type Indices4 = s: seq<int> | |s| == 4 witness [0, 0, 0, 0]
  type Indices8 = s: seq<int> | |s| == 8 witness [0, 0, 0, 0, 0, 0, 0, 0]
  type Faces2 = s: seq<Face> | |s| == 2 witness [NoFace, NoFace]
  type Faces4 = s: seq<Face> | |s| == 4 witness [NoFace, NoFace, NoFace, NoFace]

  datatype Quad = Quad(verticesIdx: Indices4, faces: Faces2)

  const NoQuad: Quad := Quad([0, 0, 0, 0], [NoFace, NoFace])

  type Quads6 = s: seq<Quad> | |s| == 6 witness [NoQuad, NoQuad, NoQuad, NoQuad, NoQuad, NoQuad]

  datatype Cube = Cube(verticesIdx: Indices8, quads: Quads6)

  datatype Tetrahedron = Tetrahedron(verticesIdx: Indices4, faces: Faces4)

  /** No index occurs twice. */
  predicate Distinct(s: seq<int>)
  {
    forall i, j :: 0 <= i < j < |s| ==> s[i] != s[j]
  }

  /** The corners of a face, as a set. */
  function Corners(f: Face): set<int>
  {
    {f.x, f.y, f.z}
  }

  /** The six indices a quad hands to the index buffer: faces[0] then faces[1]. */
  function QuadIndices(q: Quad): seq<int>
  {
    [q.faces[0].x, q.faces[0].y, q.faces[0].z, q.faces[1].x, q.faces[1].y, q.faces[1].z]
  }

  /** Quad(v0, v1, v2, v3): keeps the four indices and splits the quad along
      the diagonal v0-v2. The two triangles walk that diagonal in opposite
      directions, and together they walk the outline v0 -> v3 -> v2 -> v1 -> v0
      exactly once: the quad is one consistently wound surface patch. */
  function MakeQuad(v0: int, v1: int, v2: int, v3: int): (q: Quad)
    ensures q.verticesIdx == [v0, v1, v2, v3]
    ensures forall k :: 0 <= k < 6 ==> QuadIndices(q)[k] in q.verticesIdx
    ensures Edge(v0, v2) in TriangleEdges(q.faces[0].x, q.faces[0].y, q.faces[0].z)
    ensures Edge(v2, v0) in TriangleEdges(q.faces[1].x, q.faces[1].y, q.faces[1].z)
  {
    Quad([v0, v1, v2, v3], [Vec3(v2, v1, v0), Vec3(v3, v2, v0)])
  }

  /** The two triangles of a quad together walk its outline once and its
      diagonal once in each direction. */
  lemma QuadOutline(v0: int, v1: int, v2: int, v3: int)
    ensures ListEdges(QuadIndices(MakeQuad(v0, v1, v2, v3))) == QuadEdges(v0, v1, v2, v3)
  {
    TwoTriangleEdges(v2, v1, v0, v3, v2, v0);
  }

  /** The directed edges of a quad laid out by MakeQuad: its outline
      v0 -> v3 -> v2 -> v1 -> v0 and both directions of the diagonal v0-v2. */
  function QuadEdges(v0: int, v1: int, v2: int, v3: int): seq<Edge<int>>
  {
    [Edge(v2, v1), Edge(v1, v0), Edge(v0, v2), Edge(v3, v2), Edge(v2, v0), Edge(v0, v3)]
  }

  /** Cube(v0, ..., v7): keeps the eight indices and builds the six quads
      of the cube's sides from them. */
  function MakeCube(v0: int, v1: int, v2: int, v3: int, v4: int, v5: int, v6: int, v7: int): (c: Cube)
    ensures c.verticesIdx == [v0, v1, v2, v3, v4, v5, v6, v7]
    ensures forall j :: 0 <= j < 6 ==> UsesOnly(c.quads[j], c.verticesIdx)
  {
    var vs := [v0, v1, v2, v3, v4, v5, v6, v7];
    var quads := [MakeQuad(v2, v3, v0, v1),
                  MakeQuad(v6, v2, v1, v7),
                  MakeQuad(v5, v6, v7, v4),
                  MakeQuad(v3, v5, v4, v0),
                  MakeQuad(v0, v4, v7, v1),
                  MakeQuad(v2, v6, v5, v3)];
    assert UsesOnly(quads[0], vs);
    assert UsesOnly(quads[1], vs);
    assert UsesOnly(quads[2], vs);
    assert UsesOnly(quads[3], vs);
    assert UsesOnly(quads[4], vs);
    assert UsesOnly(quads[5], vs);
    Cube(vs, quads)
  }

  /** Every index a quad stores, and so every index its faces use, is one of vs. */
  predicate UsesOnly(q: Quad, vs: seq<int>)
  {
    forall k :: 0 <= k < 4 ==> q.verticesIdx[k] in vs
  }

  /** Every index a quad's two faces use is one of vs. */
  predicate FacesUseOnly(q: Quad, vs: seq<int>)
  {
    forall k :: 0 <= k < 6 ==> QuadIndices(q)[k] in vs
  }

  /** The 36 indices of a cube's 12 triangles in index-buffer order:
      entry 6j + k is entry k of quad j (faces[0] then faces[1]). */
  function CubeIndices(c: Cube): (indices: seq<int>)
    ensures |indices| == 36
  {
    seq(36, n requires 0 <= n < 36 => QuadIndices(c.quads[n / 6])[n % 6])
  }

  /** Entry 6j + k of a cube's index list is entry k of quad j. */
  lemma CubeIndicesLayout(c: Cube)
    ensures forall j, k :: 0 <= j < 6 && 0 <= k < 6 ==> CubeIndices(c)[6 * j + k] == QuadIndices(c.quads[j])[k]
  {
  }

  /** The index list of Cube(v0, ..., v7) written out, quad by quad. */
  lemma CubeTable(v0: int, v1: int, v2: int, v3: int, v4: int, v5: int, v6: int, v7: int)
    ensures CubeIndices(MakeCube(v0, v1, v2, v3, v4, v5, v6, v7)) ==
      [v0, v3, v2, v1, v0, v2] + [v1, v2, v6, v7, v1, v6] + [v7, v6, v5, v4, v7, v5] +
      [v4, v5, v3, v0, v4, v3] + [v7, v4, v0, v1, v7, v0] + [v5, v6, v2, v3, v5, v2]
  {
    CubeIndicesByQuad(MakeCube(v0, v1, v2, v3, v4, v5, v6, v7));
  }

  /** Every index a cube hands to the index buffer is one of its eight
      vertex indices. */
  lemma CubeIndicesUseCorners(v0: int, v1: int, v2: int, v3: int, v4: int, v5: int, v6: int, v7: int)
    ensures var c := MakeCube(v0, v1, v2, v3, v4, v5, v6, v7);
      forall n :: 0 <= n < 36 ==> CubeIndices(c)[n] in c.verticesIdx
  {
    var c := MakeCube(v0, v1, v2, v3, v4, v5, v6, v7);
    var vs := c.verticesIdx;
    assert FacesUseOnly(c.quads[0], vs);
    assert FacesUseOnly(c.quads[1], vs);
    assert FacesUseOnly(c.quads[2], vs);
    assert FacesUseOnly(c.quads[3], vs);
    assert FacesUseOnly(c.quads[4], vs);
    assert FacesUseOnly(c.quads[5], vs);
    forall n | 0 <= n < 36
      ensures CubeIndices(c)[n] in vs
    {
      assert FacesUseOnly(c.quads[n / 6], vs);
    }
  }

  /** The cube's index list is its six quads' index lists in order. */
  lemma CubeIndicesByQuad(c: Cube)
    ensures CubeIndices(c) == QuadIndices(c.quads[0]) + QuadIndices(c.quads[1]) + QuadIndices(c.quads[2])
                            + QuadIndices(c.quads[3]) + QuadIndices(c.quads[4]) + QuadIndices(c.quads[5])
  {
    CubeIndicesLayout(c);
    SixBlocks(CubeIndices(c), QuadIndices(c.quads[0]), QuadIndices(c.quads[1]), QuadIndices(c.quads[2]),
              QuadIndices(c.quads[3]), QuadIndices(c.quads[4]), QuadIndices(c.quads[5]));
  }

  /** A list of 36 whose entry 6j + k is entry k of block j is the six blocks in order. */
  lemma SixBlocks(s: seq<int>, b0: seq<int>, b1: seq<int>, b2: seq<int>, b3: seq<int>, b4: seq<int>, b5: seq<int>)
    requires |s| == 36 && |b0| == |b1| == |b2| == |b3| == |b4| == |b5| == 6
    requires forall k :: 0 <= k < 6 ==> s[k] == b0[k] && s[6 + k] == b1[k] && s[12 + k] == b2[k]
    requires forall k :: 0 <= k < 6 ==> s[18 + k] == b3[k] && s[24 + k] == b4[k] && s[30 + k] == b5[k]
    ensures s == b0 + b1 + b2 + b3 + b4 + b5
  {
    var t := b0 + b1 + b2 + b3 + b4 + b5;
    forall n | 0 <= n < 36
      ensures s[n] == t[n]
    {
      var k := n % 6;
      if n < 6 { assert n == k; }
      else if n < 12 { assert n == 6 + k; }
      else if n < 18 { assert n == 12 + k; }
      else if n < 24 { assert n == 18 + k; }
      else if n < 30 { assert n == 24 + k; }
      else { assert n == 30 + k; }
    }
  }

  /** The directed edges of the twelve triangles of Cube(v0, ..., v7), quad by quad. */
  function CubeEdgeList(v0: int, v1: int, v2: int, v3: int, v4: int, v5: int, v6: int, v7: int): seq<Edge<int>>
  {
    QuadEdges(v2, v3, v0, v1) + QuadEdges(v6, v2, v1, v7) + QuadEdges(v5, v6, v7, v4)
    + QuadEdges(v3, v5, v4, v0) + QuadEdges(v0, v4, v7, v1) + QuadEdges(v2, v6, v5, v3)
  }

  lemma CubeEdgesByQuad(v0: int, v1: int, v2: int, v3: int, v4: int, v5: int, v6: int, v7: int)
    ensures ListEdges(CubeIndices(MakeCube(v0, v1, v2, v3, v4, v5, v6, v7)))
         == CubeEdgeList(v0, v1, v2, v3, v4, v5, v6, v7)
  {
    var c := MakeCube(v0, v1, v2, v3, v4, v5, v6, v7);
    CubeIndicesByQuad(c);
    var a0, a1, a2 := QuadIndices(c.quads[0]), QuadIndices(c.quads[1]), QuadIndices(c.quads[2]);
    var a3, a4, a5 := QuadIndices(c.quads[3]), QuadIndices(c.quads[4]), QuadIndices(c.quads[5]);
    ListEdgesAppend(a0, a1);
    ListEdgesAppend(a0 + a1, a2);
    ListEdgesAppend(a0 + a1 + a2, a3);
    ListEdgesAppend(a0 + a1 + a2 + a3, a4);
    ListEdgesAppend(a0 + a1 + a2 + a3 + a4, a5);
    QuadOutline(v2, v3, v0, v1);
    QuadOutline(v6, v2, v1, v7);
    QuadOutline(v5, v6, v7, v4);
    QuadOutline(v3, v5, v4, v0);
    QuadOutline(v0, v4, v7, v1);
    QuadOutline(v2, v6, v5, v3);
  }

  /** Every directed edge of a Cube's twelve triangles is walked back by a
      neighbouring triangle, whatever the eight indices. */
  lemma CubeEdgesReversed(v0: int, v1: int, v2: int, v3: int, v4: int, v5: int, v6: int, v7: int)
    ensures EveryEdgeReversed(CubeEdgeList(v0, v1, v2, v3, v4, v5, v6, v7))
  {
    var q0, q1, q2 := QuadEdges(v2, v3, v0, v1), QuadEdges(v6, v2, v1, v7), QuadEdges(v5, v6, v7, v4);
    var q3, q4, q5 := QuadEdges(v3, v5, v4, v0), QuadEdges(v0, v4, v7, v1), QuadEdges(v2, v6, v5, v3);
    var es := q0 + q1 + q2 + q3 + q4 + q5;
    forall e | e in q0 ensures Reverse(e) in es { }
    forall e | e in q1 ensures Reverse(e) in es { }
    forall e | e in q2 ensures Reverse(e) in es { }
    forall e | e in q3 ensures Reverse(e) in es { }
    forall e | e in q4 ensures Reverse(e) in es { }
    forall e | e in q5 ensures Reverse(e) in es { }
  }

  /** With eight distinct indices no directed edge of the cube is walked twice. */
  lemma CubeEdgesNotRepeated(v0: int, v1: int, v2: int, v3: int, v4: int, v5: int, v6: int, v7: int)
    requires Distinct([v0, v1, v2, v3, v4, v5, v6, v7])
    ensures NoRepeatedEdge(CubeEdgeList(v0, v1, v2, v3, v4, v5, v6, v7))
  {
    DistinctEight(v0, v1, v2, v3, v4, v5, v6, v7);
    var q0, q1, q2 := QuadEdges(v2, v3, v0, v1), QuadEdges(v6, v2, v1, v7), QuadEdges(v5, v6, v7, v4);
    var q3, q4, q5 := QuadEdges(v3, v5, v4, v0), QuadEdges(v0, v4, v7, v1), QuadEdges(v2, v6, v5, v3);
    QuadEdgesNotRepeated(v2, v3, v0, v1);
    QuadEdgesNotRepeated(v6, v2, v1, v7);
    QuadEdgesNotRepeated(v5, v6, v7, v4);
    QuadEdgesNotRepeated(v3, v5, v4, v0);
    QuadEdgesNotRepeated(v0, v4, v7, v1);
    QuadEdgesNotRepeated(v2, v6, v5, v3);
    Side0Disjoint(v0, v1, v2, v3, v4, v5, v6, v7);
    Side0DisjointRest(v0, v1, v2, v3, v4, v5, v6, v7);
    Side1Disjoint(v0, v1, v2, v3, v4, v5, v6, v7);
    Side2Disjoint(v0, v1, v2, v3, v4, v5, v6, v7);
    Side3Disjoint(v0, v1, v2, v3, v4, v5, v6, v7);
    DisjointAppend(q0, q1, q2);
    DisjointAppend(q0, q1, q3);
    DisjointAppend(q0 + q1, q2, q3);
    DisjointAppend(q0, q1, q4);
    DisjointAppend(q0 + q1, q2, q4);
    DisjointAppend(q0 + q1 + q2, q3, q4);
    DisjointAppend(q0, q1, q5);
    DisjointAppend(q0 + q1, q2, q5);
    DisjointAppend(q0 + q1 + q2, q3, q5);
    DisjointAppend(q0 + q1 + q2 + q3, q4, q5);
    NoRepeatedEdgeAppend(q0, q1);
    NoRepeatedEdgeAppend(q0 + q1, q2);
    NoRepeatedEdgeAppend(q0 + q1 + q2, q3);
    NoRepeatedEdgeAppend(q0 + q1 + q2 + q3, q4);
    NoRepeatedEdgeAppend(q0 + q1 + q2 + q3 + q4, q5);
  }

  /** The six edges of a quad with four distinct corners are distinct. */
  lemma QuadEdgesNotRepeated(v0: int, v1: int, v2: int, v3: int)
    requires v0 != v1 && v0 != v2 && v0 != v3 && v1 != v2 && v1 != v3 && v2 != v3
    ensures NoRepeatedEdge(QuadEdges(v0, v1, v2, v3))
  {
  }

  /** The six sides of Cube(v0, ..., v7) as the directed edges of their two triangles. */
  function SideEdges(v0: int, v1: int, v2: int, v3: int, v4: int, v5: int, v6: int, v7: int): seq<seq<Edge<int>>>
  {
    [QuadEdges(v2, v3, v0, v1), QuadEdges(v6, v2, v1, v7), QuadEdges(v5, v6, v7, v4),
     QuadEdges(v3, v5, v4, v0), QuadEdges(v0, v4, v7, v1), QuadEdges(v2, v6, v5, v3)]
  }

  /** With eight distinct indices no two sides of the cube share a directed
      edge: neighbouring sides walk their common edge in opposite directions.
      One lemma per side, against the sides after it. */
  lemma Side0Disjoint(v0: int, v1: int, v2: int, v3: int, v4: int, v5: int, v6: int, v7: int)
    requires PairwiseDistinct(v0, v1, v2, v3, v4, v5, v6, v7)
    ensures var q := SideEdges(v0, v1, v2, v3, v4, v5, v6, v7);
      Disjoint(q[0], q[1]) && Disjoint(q[0], q[2]) && Disjoint(q[0], q[3])
  {
  }

  lemma Side0DisjointRest(v0: int, v1: int, v2: int, v3: int, v4: int, v5: int, v6: int, v7: int)
    requires PairwiseDistinct(v0, v1, v2, v3, v4, v5, v6, v7)
    ensures var q := SideEdges(v0, v1, v2, v3, v4, v5, v6, v7);
      Disjoint(q[0], q[4]) && Disjoint(q[0], q[5])
  {
  }

  lemma Side1Disjoint(v0: int, v1: int, v2: int, v3: int, v4: int, v5: int, v6: int, v7: int)
    requires PairwiseDistinct(v0, v1, v2, v3, v4, v5, v6, v7)
    ensures var q := SideEdges(v0, v1, v2, v3, v4, v5, v6, v7);
      Disjoint(q[1], q[2]) && Disjoint(q[1], q[3]) && Disjoint(q[1], q[4]) && Disjoint(q[1], q[5])
  {
  }

  lemma Side2Disjoint(v0: int, v1: int, v2: int, v3: int, v4: int, v5: int, v6: int, v7: int)
    requires PairwiseDistinct(v0, v1, v2, v3, v4, v5, v6, v7)
    ensures var q := SideEdges(v0, v1, v2, v3, v4, v5, v6, v7);
      Disjoint(q[2], q[3]) && Disjoint(q[2], q[4]) && Disjoint(q[2], q[5])
  {
  }

  lemma Side3Disjoint(v0: int, v1: int, v2: int, v3: int, v4: int, v5: int, v6: int, v7: int)
    requires PairwiseDistinct(v0, v1, v2, v3, v4, v5, v6, v7)
    ensures var q := SideEdges(v0, v1, v2, v3, v4, v5, v6, v7);
      Disjoint(q[3], q[4]) && Disjoint(q[3], q[5]) && Disjoint(q[4], q[5])
  {
  }

  /** The cube the constructor builds from eight distinct indices is a closed,
      consistently wound surface: each of its 36 directed edges (the 12 cube
      edges and the 6 quad diagonals, both ways) occurs once, and its reverse
      occurs exactly once. */
  lemma CubeClosed(v0: int, v1: int, v2: int, v3: int, v4: int, v5: int, v6: int, v7: int)
    requires Distinct([v0, v1, v2, v3, v4, v5, v6, v7])
    ensures var es := ListEdges(CubeIndices(MakeCube(v0, v1, v2, v3, v4, v5, v6, v7)));
      && |es| == 36
      && ReverseClosed(es)
      && Simple(es)
      && forall i :: 0 <= i < |es| ==> multiset(es)[Reverse(es[i])] == 1
  {
    var es := ListEdges(CubeIndices(MakeCube(v0, v1, v2, v3, v4, v5, v6, v7)));
    CubeEdgesByQuad(v0, v1, v2, v3, v4, v5, v6, v7);
    CubeEdgesReversed(v0, v1, v2, v3, v4, v5, v6, v7);
    CubeEdgesNotRepeated(v0, v1, v2, v3, v4, v5, v6, v7);
    ClosedFromMatching(es);
    ExactlyOneReverse(es);
  }

  /** 1 when x is one of the quad's four corners, else 0. */
  function HasCorner(q: Quad, x: int): nat
  {
    if x in q.verticesIdx then 1 else 0
  }

  /** The number of the cube's six quads that have x as a corner. */
  function QuadsWith(c: Cube, x: int): nat
  {
    HasCorner(c.quads[0], x) + HasCorner(c.quads[1], x) + HasCorner(c.quads[2], x)
    + HasCorner(c.quads[3], x) + HasCorner(c.quads[4], x) + HasCorner(c.quads[5], x)
  }

  /** With distinct indices each quad has four distinct corners, and each of the
      eight cube indices is a corner of exactly three quads. */
  lemma CubeVertexIncidence(v0: int, v1: int, v2: int, v3: int, v4: int, v5: int, v6: int, v7: int)
    requires Distinct([v0, v1, v2, v3, v4, v5, v6, v7])
    ensures var c := MakeCube(v0, v1, v2, v3, v4, v5, v6, v7);
      && (forall j :: 0 <= j < 6 ==> Distinct(c.quads[j].verticesIdx))
      && (forall x | x in c.verticesIdx :: QuadsWith(c, x) == 3)
  {
    DistinctEight(v0, v1, v2, v3, v4, v5, v6, v7);
    var c := MakeCube(v0, v1, v2, v3, v4, v5, v6, v7);
    DistinctFour(v2, v3, v0, v1);
    DistinctFour(v6, v2, v1, v7);
    DistinctFour(v5, v6, v7, v4);
    DistinctFour(v3, v5, v4, v0);
    DistinctFour(v0, v4, v7, v1);
    DistinctFour(v2, v6, v5, v3);
  }

  /** The 28 disequalities between eight indices: Distinct of the eight
      written out, so that the cube's disjointness proofs work from plain
      facts instead of instantiating a quantifier (DistinctEight relates
      the two). */
  predicate PairwiseDistinct(v0: int, v1: int, v2: int, v3: int, v4: int, v5: int, v6: int, v7: int)
  {
    && v0 != v1 && v0 != v2 && v0 != v3 && v0 != v4 && v0 != v5 && v0 != v6 && v0 != v7
    && v1 != v2 && v1 != v3 && v1 != v4 && v1 != v5 && v1 != v6 && v1 != v7
    && v2 != v3 && v2 != v4 && v2 != v5 && v2 != v6 && v2 != v7
    && v3 != v4 && v3 != v5 && v3 != v6 && v3 != v7
    && v4 != v5 && v4 != v6 && v4 != v7
    && v5 != v6 && v5 != v7
    && v6 != v7
  }

  lemma DistinctEight(v0: int, v1: int, v2: int, v3: int, v4: int, v5: int, v6: int, v7: int)
    requires Distinct([v0, v1, v2, v3, v4, v5, v6, v7])
    ensures PairwiseDistinct(v0, v1, v2, v3, v4, v5, v6, v7)
  {
    var s := [v0, v1, v2, v3, v4, v5, v6, v7];
    assert s[0] == v0 && s[1] == v1 && s[2] == v2 && s[3] == v3;
    assert s[4] == v4 && s[5] == v5 && s[6] == v6 && s[7] == v7;
  }

  lemma DistinctFour(v0: int, v1: int, v2: int, v3: int)
    ensures Distinct([v0, v1, v2, v3]) <==> v0 != v1 && v0 != v2 && v0 != v3 && v1 != v2 && v1 != v3 && v2 != v3
  {
    var s := [v0, v1, v2, v3];
    assert s[0] == v0 && s[1] == v1 && s[2] == v2 && s[3] == v3;
  }

  /** Tetrahedron(v0, v1, v2, v3): keeps the four indices and builds the four
      triangular faces, each from three of them. */
  function MakeTetrahedron(v0: int, v1: int, v2: int, v3: int): (t: Tetrahedron)
    ensures t.verticesIdx == [v0, v1, v2, v3]
    ensures forall k :: 0 <= k < 4 ==> Corners(t.faces[k]) <= {v0, v1, v2, v3}
  {
    Tetrahedron([v0, v1, v2, v3],
                [Vec3(v0, v1, v2), Vec3(v3, v2, v1), Vec3(v0, v2, v3), Vec3(v0, v3, v1)])
  }

  /** The twelve indices of a tetrahedron's four faces, face by face. */
  function TetrahedronIndices(t: Tetrahedron): seq<int>
  {
    seq(12, n requires 0 <= n < 12 => t.faces[n / 3].Component(n % 3))
  }

  /** Face k leaves out corner OmittedCorner[k] of the tetrahedron. */
  const OmittedCorner: seq<nat> := [3, 0, 1, 2]

  /** With distinct indices face k has three distinct corners: all of the
      tetrahedron's except the one at position OmittedCorner[k]. */
  lemma TetrahedronFacesOmitOne(v0: int, v1: int, v2: int, v3: int)
    requires Distinct([v0, v1, v2, v3])
    ensures var t := MakeTetrahedron(v0, v1, v2, v3);
      forall k :: 0 <= k < 4 ==>
        && Corners(t.faces[k]) == {v0, v1, v2, v3} - {t.verticesIdx[OmittedCorner[k]]}
        && |Corners(t.faces[k])| == 3
  {
    DistinctFour(v0, v1, v2, v3);
    var t := MakeTetrahedron(v0, v1, v2, v3);
    assert Corners(t.faces[0]) == {v0, v1, v2};
    assert Corners(t.faces[1]) == {v1, v2, v3};
    assert Corners(t.faces[2]) == {v0, v2, v3};
    assert Corners(t.faces[3]) == {v0, v1, v3};
  }

  /** The number of the tetrahedron's faces that have x as a corner. */
  function FacesWith(t: Tetrahedron, x: int): nat
  {
    (if x in Corners(t.faces[0]) then 1 else 0) + (if x in Corners(t.faces[1]) then 1 else 0)
    + (if x in Corners(t.faces[2]) then 1 else 0) + (if x in Corners(t.faces[3]) then 1 else 0)
  }

  /** Each of the four indices is a corner of exactly three faces. */
  lemma TetrahedronIncidence(v0: int, v1: int, v2: int, v3: int)
    requires Distinct([v0, v1, v2, v3])
    ensures var t := MakeTetrahedron(v0, v1, v2, v3);
      forall x | x in t.verticesIdx :: FacesWith(t, x) == 3
  {
    DistinctFour(v0, v1, v2, v3);
  }

  /** The directed edges of the tetrahedron's four faces, face by face. */
  function TetrahedronEdgeList(v0: int, v1: int, v2: int, v3: int): seq<Edge<int>>
  {
    TriangleEdges(v0, v1, v2) + TriangleEdges(v3, v2, v1) + TriangleEdges(v0, v2, v3) + TriangleEdges(v0, v3, v1)
  }

  /** The twelve indices the four faces contribute, in face order: the
      winding of each face is fixed by this table. */
  lemma TetrahedronTable(v0: int, v1: int, v2: int, v3: int)
    ensures TetrahedronIndices(MakeTetrahedron(v0, v1, v2, v3))
         == [v0, v1, v2, v3, v2, v1, v0, v2, v3, v0, v3, v1]
  {
  }

  lemma TetrahedronEdgesByFace(v0: int, v1: int, v2: int, v3: int)
    ensures ListEdges(TetrahedronIndices(MakeTetrahedron(v0, v1, v2, v3))) == TetrahedronEdgeList(v0, v1, v2, v3)
  {
    var first, second := [v0, v1, v2, v3, v2, v1], [v0, v2, v3, v0, v3, v1];
    TetrahedronTable(v0, v1, v2, v3);
    assert TetrahedronIndices(MakeTetrahedron(v0, v1, v2, v3)) == first + second;
    ListEdgesAppend(first, second);
    TwoTriangleEdges(v0, v1, v2, v3, v2, v1);
    TwoTriangleEdges(v0, v2, v3, v0, v3, v1);
  }

  /** The tetrahedron built from four distinct indices is a closed,
      consistently wound surface: each of its six edges is walked once in each
      direction, by two different faces. */
  lemma TetrahedronClosed(v0: int, v1: int, v2: int, v3: int)
    requires Distinct([v0, v1, v2, v3])
    ensures var es := ListEdges(TetrahedronIndices(MakeTetrahedron(v0, v1, v2, v3)));
      && |es| == 12
      && ReverseClosed(es)
      && Simple(es)
      && forall i :: 0 <= i < |es| ==> multiset(es)[Reverse(es[i])] == 1
  {
    DistinctFour(v0, v1, v2, v3);
    var es := ListEdges(TetrahedronIndices(MakeTetrahedron(v0, v1, v2, v3)));
    TetrahedronEdgesByFace(v0, v1, v2, v3);
    assert EveryEdgeReversed(es);
    assert NoRepeatedEdge(es);
    ClosedFromMatching(es);
    ExactlyOneReverse(es);
  }
}
