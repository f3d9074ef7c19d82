/** MengerSponge: a list of vertices and a list of cubes indexing into it,
    drawn from one index buffer. Only the starting cube exists: the
    subdivision step is still an empty loop, so fractalize leaves the sponge
    as it is. */
module MengerSponge {
  import opened Geometry
  import opened Primitives
  import RenderFlags
  import IBOCube

  datatype Sponge = Sponge(spongeVerts: seq<Vec3<real>>, cubes: seq<Cube>, flags: RenderFlags.Flags)

  /** The eight corners of the unit cube resetSponge starts from. */
  const UnitCubeVerts: seq<Vec3<real>> := [
    Vec3(0.0, 0.0, 0.0), Vec3(1.0, 0.0, 0.0), Vec3(1.0, 1.0, 0.0), Vec3(0.0, 1.0, 0.0),
    Vec3(0.0, 0.0, 1.0), Vec3(0.0, 1.0, 1.0), Vec3(1.0, 1.0, 1.0), Vec3(1.0, 0.0, 1.0)]

  /** Every index of every cube names a vertex of the sponge. */
  ghost predicate WellIndexed(s: Sponge)
  {
    forall i, n :: 0 <= i < |s.cubes| && 0 <= n < 36 ==> 0 <= CubeIndices(s.cubes[i])[n] < |s.spongeVerts|
  }

  /** resetSponge: eight vertices and the single cube Cube(0..7) over them,
      the same corners IBOCube draws; the render flags are kept. */
  function ResetSponge(s: Sponge): (r: Sponge)
    ensures |r.spongeVerts| == 8
    ensures r.cubes == [MakeCube(0, 1, 2, 3, 4, 5, 6, 7)]
    ensures Flatten(r.spongeVerts) == IBOCube.CubeVerts
    ensures WellIndexed(r)
    ensures r.flags == s.flags
  {
    var r := Sponge(UnitCubeVerts, [MakeCube(0, 1, 2, 3, 4, 5, 6, 7)], s.flags);
    assert WellIndexed(r) by {
      CubeIndicesUseCorners(0, 1, 2, 3, 4, 5, 6, 7);
    }
    assert Flatten(r.spongeVerts) == IBOCube.CubeVerts by {
      FlattenUnitCube();
    }
    r
  }

  lemma FlattenUnitCube()
    ensures Flatten(UnitCubeVerts) == IBOCube.CubeVerts
  {
    assert Unflatten(IBOCube.CubeVerts) == UnitCubeVerts;
    FlattenUnflatten(IBOCube.CubeVerts);
  }

  /** init: both render flags on, then resetSponge. */
  function Init(): (s: Sponge)
    ensures s.flags == RenderFlags.Initial
    ensures |s.spongeVerts| == 8 && |s.cubes| == 1 && WellIndexed(s)
    ensures s.cubes == [MakeCube(0, 1, 2, 3, 4, 5, 6, 7)]
    ensures Flatten(s.spongeVerts) == IBOCube.CubeVerts
  {
    ResetSponge(Sponge([], [], RenderFlags.Initial))
  }

  /** fractalizeSponge: both loops over the starting cubes have empty bodies,
      so the sponge comes back unchanged and the buffers are refilled from
      the same data. */
  function FractalizeSponge(s: Sponge): (r: Sponge)
    ensures r.spongeVerts == s.spongeVerts && r.cubes == s.cubes && r.flags == s.flags
  {
    s
  }

  /** The entry of the sponge's index buffer that holds index k of quad j
      of cube i. */
  function Slot(i: int, j: int, k: int): int
  {
    36 * i + 6 * j + k
  }

  /** setIndexBufferData: entry 36i + 6j + k is index k of quad j of cube i,
      faces[0] then faces[1]. */
  function SetIndexBufferData(cubes: seq<Cube>): (quadIndices: seq<int>)
    ensures |quadIndices| == 12 * 3 * |cubes|
    ensures forall i, j, k :: 0 <= i < |cubes| && 0 <= j < 6 && 0 <= k < 6 ==>
      quadIndices[Slot(i, j, k)] == QuadIndices(cubes[i].quads[j])[k]
  {
    if |cubes| == 0 then []
    else
      var init, last := cubes[..|cubes| - 1], cubes[|cubes| - 1];
      var front := SetIndexBufferData(init);
      AppendCubeLayout(init, last, front);
      assert init + [last] == cubes;
      front + CubeIndices(last)
  }

  /** Appending one more cube's 36 indices to the buffer of the others keeps
      the 36i + 6j + k layout. */
  lemma AppendCubeLayout(init: seq<Cube>, last: Cube, front: seq<int>)
    requires |front| == 36 * |init|
    requires forall i, j, k :: 0 <= i < |init| && 0 <= j < 6 && 0 <= k < 6 ==>
      front[Slot(i, j, k)] == QuadIndices(init[i].quads[j])[k]
    ensures var cubes, buffer := init + [last], front + CubeIndices(last);
      forall i, j, k :: 0 <= i < |cubes| && 0 <= j < 6 && 0 <= k < 6 ==>
        buffer[Slot(i, j, k)] == QuadIndices(cubes[i].quads[j])[k]
  {
    var cubes, buffer := init + [last], front + CubeIndices(last);
    forall i, j, k | 0 <= i < |cubes| && 0 <= j < 6 && 0 <= k < 6
      ensures buffer[Slot(i, j, k)] == QuadIndices(cubes[i].quads[j])[k]
    {
      if i == |init| {
        CubeIndicesLayout(last);
        assert buffer[Slot(i, j, k)] == CubeIndices(last)[6 * j + k];
      } else {
        assert buffer[Slot(i, j, k)] == front[Slot(i, j, k)];
        assert cubes[i] == init[i];
      }
    }
  }

  /** The count both glDrawElements calls pass. */
  function DrawCount(s: Sponge): nat
  {
    |s.cubes| * 6 * 2 * 3
  }

  /** The draw count is the number of indices uploaded, 12 * 3 per cube. */
  lemma DrawCountMatchesUpload(s: Sponge)
    ensures DrawCount(s) == |SetIndexBufferData(s.cubes)| == 12 * 3 * |s.cubes|
  {
  }

  /** The index buffer of a well-indexed sponge only names existing vertices. */
  lemma IndexBufferInRange(s: Sponge)
    requires WellIndexed(s)
    ensures forall n :: 0 <= n < |SetIndexBufferData(s.cubes)| ==> 0 <= SetIndexBufferData(s.cubes)[n] < |s.spongeVerts|
  {
    var buffer := SetIndexBufferData(s.cubes);
    forall n | 0 <= n < |buffer|
      ensures 0 <= buffer[n] < |s.spongeVerts|
    {
      var i, m := n / 36, n % 36;
      var j, k := m / 6, m % 6;
      assert n == Slot(i, j, k);
      CubeIndicesLayout(s.cubes[i]);
      assert buffer[n] == CubeIndices(s.cubes[i])[m];
    }
  }

  /** With the single reset cube the sponge's index buffer is IBOCube's. */
  lemma ResetBufferIsCubeBuffer(s: Sponge)
    ensures SetIndexBufferData(ResetSponge(s).cubes) == IBOCube.SetIndexBufferData()
  {
    var cubes := ResetSponge(s).cubes;
    assert cubes[..0] == [];
  }

  /** setVertexBufferData: three floats per vertex, component c of vertex i
      at 3i + c. */
  function SetVertexBufferData(s: Sponge): (vertices: seq<real>)
    ensures |vertices| == 3 * |s.spongeVerts|
    ensures forall i, c :: 0 <= i < |s.spongeVerts| && 0 <= c < 3 ==> vertices[3 * i + c] == s.spongeVerts[i].Component(c)
  {
    Flatten(s.spongeVerts)
  }

  /** The vertex buffer holds the vertices and nothing else: reading it back
      three floats at a time gives the vertex list. */
  lemma VertexBufferRoundTrip(s: Sponge)
    ensures Unflatten(SetVertexBufferData(s)) == s.spongeVerts
  {
    UnflattenFlatten(s.spongeVerts);
  }

  /** Fractalizing the stub changes neither buffer. */
  lemma FractalizeKeepsBuffers(s: Sponge)
    ensures SetVertexBufferData(FractalizeSponge(s)) == SetVertexBufferData(s)
    ensures SetIndexBufferData(FractalizeSponge(s).cubes) == SetIndexBufferData(s.cubes)
    ensures WellIndexed(s) ==> WellIndexed(FractalizeSponge(s))
  {
  }

  function ToggleWireframe(s: Sponge): (r: Sponge)
    ensures r.flags == RenderFlags.ToggleWireframe(s.flags)
    ensures r.spongeVerts == s.spongeVerts && r.cubes == s.cubes
  {
    s.(flags := RenderFlags.ToggleWireframe(s.flags))
  }

  function ToggleFaces(s: Sponge): (r: Sponge)
    ensures r.flags == RenderFlags.ToggleFaces(s.flags)
    ensures r.spongeVerts == s.spongeVerts && r.cubes == s.cubes
  {
    s.(flags := RenderFlags.ToggleFaces(s.flags))
  }
}
