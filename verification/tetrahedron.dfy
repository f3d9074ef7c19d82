/** Tetrahedron.h declares its own Tetrahedron struct, a copy of the one in
    Primitives.h (the two headers are never included together). Its
    constructor is modelled separately and shown to build the same value, so
    every fact proved of the Primitives constructor holds of this one. */
module StandaloneTetrahedron {
  import opened Geometry
  import Primitives
  import Winding

  function MakeTetrahedron(v0: int, v1: int, v2: int, v3: int): (t: Primitives.Tetrahedron)
    ensures t.verticesIdx == [v0, v1, v2, v3]
    ensures t == Primitives.MakeTetrahedron(v0, v1, v2, v3)
  {
    Primitives.Tetrahedron([v0, v1, v2, v3],
                           [Vec3(v0, v1, v2), Vec3(v3, v2, v1), Vec3(v0, v2, v3), Vec3(v0, v3, v1)])
  }

  /** The faces of this copy omit one corner each and close up, exactly as
      those of the Primitives.h constructor do. */
  lemma StandaloneTetrahedronClosed(v0: int, v1: int, v2: int, v3: int)
    requires Primitives.Distinct([v0, v1, v2, v3])
    ensures var t := MakeTetrahedron(v0, v1, v2, v3);
      && (forall k :: 0 <= k < 4 ==>
            Primitives.Corners(t.faces[k]) == {v0, v1, v2, v3} - {t.verticesIdx[Primitives.OmittedCorner[k]]})
      && (forall x | x in t.verticesIdx :: Primitives.FacesWith(t, x) == 3)
      && Winding.ReverseClosed(Winding.ListEdges(Primitives.TetrahedronIndices(t)))
  {
    Primitives.TetrahedronFacesOmitOne(v0, v1, v2, v3);
    Primitives.TetrahedronIncidence(v0, v1, v2, v3);
    Primitives.TetrahedronClosed(v0, v1, v2, v3);
  }
}
