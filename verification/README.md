# Fractal meshes and indexed cubes — a Dafny model

This project models the geometry core of a small OpenGL program with three
drawable objects:

- **IBOCube** is a unit cube drawn from an index buffer, with back faces culled.
- **MengerSponge** is a list of vertices plus a list of cubes that index into
  it. Only the starting cube exists, because the subdivision loop has an
  empty body.
- **FractalMesh** is midpoint-displacement terrain over a triangle soup.

The model also covers the index-building primitives: `Quad` and `Cube`
in `Primitives.h` are shared by IBOCube and MengerSponge; `Tetrahedron` in
`Primitives.h` and its copy in `Tetrahedron.h` are modelled as stand-alone
primitives that no object in the program uses. It also covers the two
render flags every object keeps.

The fixed C arrays of the primitives (`verticesIdx[8]`, `quads[6]`,
`faces[2]`) are sequences of fixed length. The GL buffers each object uploads
are modelled as the arrays handed to `glBufferData`. The GL calls themselves
are not modelled.

What is proved:

- **Index layouts.** Entry `36i + 6j + k` of the sponge's index buffer is
  index `k` of quad `j` of cube `i`. Vertex arrays put component `c` of
  point `i` at `3i + c`, and reading such an array back gives the points.
- **Counts.** Every draw count equals the number of indices or points
  uploaded.
- **Closed surfaces.** When its eight corner indices are distinct, as in
  every cube the program builds, the 36 indices of a cube form a closed
  surface: every directed edge is matched by its reverse exactly once, and
  no edge repeats. The same holds for the 12 indices of a tetrahedron with
  four distinct corners.
- **Winding.** Placed on `cubeVerts`, all 12 triangles of the cube are
  counter-clockwise seen from outside. That is OpenGL's default front face,
  so culling back faces removes only the far side.
- **Subdivision.** Each subdivided triangle becomes four children: one per
  corner and one of midpoints. Each corner appears once in the children and
  each midpoint three times. The children walk the parent's outline
  backwards.
- **Growth.** `k` fractalize steps multiply the point count by `4^k` and the
  displacement by `0.5^k`.
- **Palettes.** Exactly the selectors 0..3 read inside the palette table.

Several inputs are parameters, because their values come from randomness,
a clock, or matrix code outside the model:

- the displacement function;
- the colour generator;
- the clock-derived seeds;
- the starting triangle;
- `glm::translate`.

## Model

| member | source | states |
|---|---|---|
| Primitives.MakeQuad | Primitives.h:22-31 | a quad stores its four corners in order; its two faces use only those corners and walk the diagonal v0–v2 in opposite directions |
| Primitives.QuadOutline | Primitives.h:29-30 | the faces (v2, v1, v0) and (v3, v2, v0) together walk the outline v0→v3→v2→v1→v0 once and the diagonal v0–v2 once in each direction |
| Primitives.MakeCube | Primitives.h:41-58 | a cube stores its eight corners in order, and each of its six quads is built from those corners only |
| Primitives.CubeTable | Primitives.h:52-57 | the 36 indices of Cube(v0..v7), two triangles per quad and six quads, written out in terms of the corners |
| Primitives.CubeIndicesUseCorners | Primitives.h:41-57 | every one of a cube's 36 triangle indices is one of its eight corners |
| Primitives.CubeVertexIncidence | Primitives.h:52-57 | for distinct corners, every corner lies on exactly three of the six quads |
| Primitives.CubeClosed | Primitives.h:52-57 | for distinct corners, the 12 triangles form a closed, consistently wound surface: every directed edge occurs once and its reverse occurs exactly once |
| Primitives.MakeTetrahedron | Primitives.h:68-79 | a tetrahedron stores its four corners in order, and every face uses only those corners |
| Primitives.TetrahedronTable | Primitives.h:75-78 | the twelve indices the faces give, face by face: (v0,v1,v2), (v3,v2,v1), (v0,v2,v3), (v0,v3,v1), which fixes each face's winding |
| Primitives.TetrahedronEdgesByFace | Primitives.h:75-78 | the directed edges of the tetrahedron's index list are those of the four faces in that order |
| Primitives.TetrahedronFacesOmitOne | Primitives.h:75-78 | for distinct corners, each face uses exactly the three corners other than one, and each corner is left out by exactly one face |
| Primitives.TetrahedronIncidence | Primitives.h:75-78 | for distinct corners, every corner lies on exactly three faces |
| Primitives.TetrahedronClosed | Primitives.h:75-78 | for distinct corners, the four faces form a closed, consistently wound surface |
| StandaloneTetrahedron.MakeTetrahedron | Tetrahedron.h:7-17 | the second Tetrahedron constructor builds the same corners and faces as the one in Primitives.h |
| StandaloneTetrahedron.StandaloneTetrahedronClosed | Tetrahedron.h:14-17 | the faces of that copy each omit one corner, meet three at each corner, and close up |
| RenderFlags.ToggleWireframe | IBOCube.h:141-144 | flips the wireframe flag and keeps the faces flag |
| RenderFlags.ToggleFaces | IBOCube.h:145-148 | flips the faces flag and keeps the wireframe flag |
| RenderFlags.DrawAsWireframe | IBOCube.h:150-154 | afterwards only the wireframe is drawn, whatever the flags were |
| RenderFlags.DrawAsFaces | IBOCube.h:155-159 | afterwards only the faces are drawn, whatever the flags were |
| RenderFlags.TogglesInvolutive | IBOCube.h:141-148 | each toggle undoes itself, and the two toggles commute |
| RenderFlags.DrawAsForgetsPriorState | IBOCube.h:150-159 | the draw-only modes do not depend on the earlier flags; toggling the other flag from them restores the initial both-on state |
| IBOCube.VertexCountMatches | IBOCube.h:191-200 | cubeVerts holds exactly eight vertices of three floats each |
| IBOCube.SetIndexBufferData | IBOCube.h:285-307 | entry 6i + k is index k of quad i of Cube(0..7); there are 36 entries, as many as both draw calls and the upload use; every entry names one of the eight vertices |
| IBOCube.UnitCubeInRange | IBOCube.h:191-201 | every index of Cube(0..7) is below the eight vertices of cubeVerts |
| IBOCube.SetCubeColors | IBOCube.h:253-261 | 24 floats, and float n is component n mod 3 of the colour: all eight vertices get the same colour |
| IBOCube.CubeFacesOutward | IBOCube.h:191-201 | placed on cubeVerts, each of the 12 index-buffer triangles is counter-clockwise seen from outside the cube, so back-face culling keeps the faces turned toward the viewer |
| IBOCube.IndexBufferClosed | IBOCube.h:290-299 | the index buffer's triangles form a closed, consistently wound surface |
| IBOCube.Init | IBOCube.h:28-74 | both flags on, getPosition reports the given position and the translation is built from it, every vertex has the given colour, and the index buffer is the one setIndexBufferData fills (Cube(0..7), closed by IBOCube.IndexBufferClosed) |
| IBOCube.InitThenSetPosition | IBOCube.h:28-74 | setPosition(p) on a freshly initialised cube gives exactly the cube initialised at p |
| IBOCube.SetPosition | IBOCube.h:165-169 | getPosition reports the new position and the translation is rebuilt from it; nothing else changes |
| IBOCube.Translate | IBOCube.h:171-174 | the translation matrix is composed with the offset; the recorded position is left alone |
| IBOCube.TranslationsKeepPosition | IBOCube.h:171-179 | any number of translations leave getPosition unchanged |
| IBOCube.PositionIgnoresTranslations | IBOCube.h:165-179 | after setPosition(p) and any translations, getPosition reports p |
| MengerSponge.ResetSponge | MengerSponge.h:277-298 | eight vertices that flatten to IBOCube's cubeVerts, the single cube Cube(0..7), every index naming a vertex, flags kept |
| MengerSponge.FlattenUnitCube | MengerSponge.h:282-291 | the sponge's starting vertices are the same floats as IBOCube's cubeVerts |
| MengerSponge.Init | MengerSponge.h:30-44 | both flags on, the single cube Cube(0..7) over eight vertices that flatten to IBOCube's cubeVerts, every index naming a vertex |
| MengerSponge.FractalizeSponge | MengerSponge.h:300-317 | the subdivision loops are empty, so vertices, cubes and flags come back unchanged |
| MengerSponge.SetIndexBufferData | MengerSponge.h:249-275 | 12 * 3 entries per cube, and entry 36i + 6j + k is index k of quad j of cube i |
| MengerSponge.DrawCountMatchesUpload | MengerSponge.h:197-202 | the count glDrawElements draws equals the number of indices uploaded, 36 per cube |
| MengerSponge.IndexBufferInRange | MengerSponge.h:249-267 | if every cube indexes existing vertices, so does every entry of the index buffer |
| MengerSponge.ResetBufferIsCubeBuffer | MengerSponge.h:256-266 | after a reset the sponge's index buffer equals IBOCube's |
| MengerSponge.SetVertexBufferData | MengerSponge.h:229-247 | three floats per vertex, component c of vertex i at 3i + c |
| MengerSponge.VertexBufferRoundTrip | MengerSponge.h:229-247 | reading the vertex buffer back three floats at a time gives the vertex list |
| MengerSponge.FractalizeKeepsBuffers | MengerSponge.h:300-317 | fractalize uploads the same vertex and index buffers as before and keeps every index valid |
| MengerSponge.ToggleWireframe | MengerSponge.h:131-134 | flips the wireframe flag; vertices and cubes unchanged |
| MengerSponge.ToggleFaces | MengerSponge.h:135-138 | flips the faces flag; vertices and cubes unchanged |
| FractalMesh.FractalizeTriangle | FractalMesh.h:296-329 | one triangle becomes four, twelve points |
| FractalMesh.SubdivisionCounts | FractalMesh.h:309-326 | in the twelve points, each parent corner occurs once and each displaced midpoint three times |
| FractalMesh.ChildTriangles | FractalMesh.h:309-326 | the children are {a, d, f}, {b, d, e}, {c, e, f} (one per parent corner, with that corner's two midpoints) and the midpoint triangle {d, e, f} |
| FractalMesh.SubdivisionEdges | FractalMesh.h:309-326 | the twelve points are the children (d,a,f), (b,d,e), (e,f,c), (e,d,f) in that order, as their directed edges show |
| FractalMesh.ChildWinding | FractalMesh.h:309-326 | every edge between midpoints is walked in both directions, and every half of the parent's outline is walked backwards |
| FractalMesh.ChildrenOppositeParent | FractalMesh.h:309-326 | when the six points differ, no child walks any half of the parent's outline forwards: the children face away from the parent |
| FractalMesh.FractalizeFirstBlocks | FractalMesh.h:335-345 | the first n triangles subdivided in order: block t of twelve points is the subdivision of triangle t |
| FractalMesh.FractalizeTrianglesBlocks | FractalMesh.h:335-345 | twelve points per whole triangle of the input, block t being the subdivision of triangle t |
| FractalMesh.FractalizeTrianglesLoop | FractalMesh.h:335-345 | the loop over i = 0, 3, 6, ... while i + 2 < size computes the list FractalizeTriangles describes |
| FractalMesh.LeftoversDropped | FractalMesh.h:339-343 | one or two trailing points that do not make a triangle have no effect on the result |
| FractalMesh.Init | FractalMesh.h:28-64 | one starting triangle, the starting displacement 1.2, the seed genTriangle takes from the clock, both flags on, the colour style and random-colour switch stored |
| FractalMesh.Fractalize | FractalMesh.h:166-175 | twelve points per whole triangle of the old list (trailing points dropped), the displacement times the roughness 0.5; seed, colour selector and flags kept |
| FractalMesh.FractalizeSubdivides | FractalMesh.h:166-175 | block t of the new points is the subdivision of old triangle t, made with the displacement before it is halved and with the mesh's seed |
| FractalMesh.Reset | FractalMesh.h:176-191 | a fresh triangle, the starting displacement and the new seed; colour selector, colour style, random-colour switch and flags kept |
| FractalMesh.FractalizeTimesGrowth | FractalMesh.h:166-175 | k fractalizes of whole triangles multiply the point count by 4^k, keep whole triangles, and multiply the displacement by 0.5^k |
| FractalMesh.ResetThenFractalize | FractalMesh.h:176-191 | after a reset and k fractalizes there are 3 * 4^k points, a whole number of triangles to draw, and displacement 1.2 * 0.5^k |
| FractalMesh.ResetThenFractalizeLevel | FractalMesh.h:166-191 | after a reset, level k + 1 subdivides each of level k's 4^k triangles with displacement 1.2 * 0.5^k and the reset's seed |
| FractalMesh.DrawCountMatchesUpload | FractalMesh.h:272-286 | the count glDrawArrays draws is the number of points, a third of the floats setVertData uploads, and reading those floats back gives the points |
| FractalMesh.FractalizeWholeTriangles | FractalMesh.h:166-175 | after a fractalize the point list is a whole number of triangles, whatever it held before |
| FractalMesh.ResetForgetsLevel | FractalMesh.h:176-191 | a reset after any number of fractalizes gives the same mesh as a reset straight away |
| FractalMesh.FractalizeTimesKeeps | FractalMesh.h:166-175 | fractalize changes only the points and the displacement |
| FractalMesh.ToggleWireframe | FractalMesh.h:197-200 | flips the wireframe flag; points, displacement, seed, colour selector and colour settings unchanged |
| FractalMesh.ToggleFaces | FractalMesh.h:201-204 | flips the faces flag; points, displacement, seed, colour selector and colour settings unchanged |
| FractalMesh.PointVecToArr | FractalMesh.h:429-437 | three floats per point, component c of point i at 3i + c, which is exactly the flattening of the point list |
| FractalMesh.SetColorArray | FractalMesh.h:369-379 | three floats per point, the colour generated for point i at 3i, 3i + 1, 3i + 2 |
| FractalMesh.PaletteBounds | FractalMesh.h:383-387 | the nine palette reads colorPalettes[i + colorSelector * 9] stay inside the 36-float table if and only if 0 <= colorSelector <= 3 |
| FractalMesh.CurrentPalette | FractalMesh.h:383-387 | for selectors 0..3 the nine floats starting at colorSelector * 9; none otherwise |
| FractalMesh.KeySelectorsInBounds | AidanBeckerAssignment3.cpp:84-131 | the selectors the keys 1–4 pass are exactly those that read a whole palette |
| FractalMesh.SetColorData | FractalMesh.h:381-411 | for selectors 0..3, three floats per point, coloured from the selected palette; none where the palette read would leave the table |
| FractalMesh.SetColor | FractalMesh.h:192-196 | stores the selector; points, displacement, seed, colour settings and flags unchanged |
| FractalMesh.SetColorLastWins | FractalMesh.h:192-196 | of two setColor calls only the second matters, and re-selecting the current palette changes nothing |
| FractalMesh.SetColorCommutes | FractalMesh.h:192-204 | setColor commutes with both render toggles |

## Left out

- OpenGL calls are not modelled. This covers buffer and vertex-array creation, shader loading, uniforms, the draw calls themselves, and `glEnable`/`glDisable` of culling. The model keeps the arrays and counts these calls are given.
- The MVP matrices, `updateMVPArray`, `setRotation`, `rotateAroundOrigin`, `resetPosition` and the default position and rotation are not modelled. They are glm matrix products with no effect on the geometry buffers. `IBOCube`'s translation matrix is an opaque type built by parameter functions standing for `glm::translate`.
- `FractalMesh`'s own `translate`/`setPosition` are left out for the same reason. So are `MengerSponge`'s, which store only matrices.
- `displace`, `randomBetween` and `genTriangle` depend on `rand()` and the clock. The displacement function, the starting triangle and the clock-derived seed are parameters of the model.
- FractalMesh.Reset: the seed is a parameter. The model does not compute `(int)(glfwGetTime()*1000) + seed` or the reseeding inside `genTriangle`, and it drops the console print.
- `generateColor` is left out. It depends on `rand()`, reseeded from the mesh's seed before every colour pass. FractalMesh.SetColorArray takes it as a parameter indexed by the point's position in the list, which stands for its place in the random stream.
- Floating point is modelled as exact reals. In single precision `startDisplacement = 1.2` and the palette entries are not exact. Halving by `roughness = 0.5` is exact for normal floats, so after k levels the program holds `(float)1.2 * 0.5^k` where FractalMesh.ResetThenFractalize states `1.2 * 0.5^k`.
- Integer widths are unbounded. The index buffers are `unsigned int` and sizes are `size_t`. Indices and counts in the model are mathematical integers, which agree with the program for every index the cubes actually use (0..7). FractalMesh's `int` loop counters and the `GLsizei` count passed to `glDrawArrays` overflow once `3 * 4^k` exceeds `2^31 - 1`, that is from k = 15 on; from there FractalMesh.ResetThenFractalize's point and draw counts no longer describe the program. One level earlier, from k = 14 on (805,306,368 points), the `int` products `i*3 + c` in `pointVecToArr` and `setColorArray` overflow, so the `3i + c` layout stated by FractalMesh.PointVecToArr and FractalMesh.SetColorArray no longer describes the program.
- `Tri` in `Primitives.h` is not used by any of the objects and is not modelled. The default `Quad()` constructor is used only to default-construct `Cube::quads` before the `Cube` constructor overwrites all six; it is modelled only as a placeholder value.
- Memory management is not modelled. The arrays allocated with `new` and never freed in `MengerSponge::setVertexBufferData` and `MengerSponge::setIndexBufferData` (allocations the program leaks) are treated as values.
- MengerSponge.ResetSponge drops the console print of the cube count.
- Wireframe colour, the colour timer and the colour style uniform are shader inputs only and are not modelled.
- FractalMesh.Init: `colorSelector` is taken as zero, since every mesh lives in a global array and so starts zero-initialised. The model does not track the uninitialised `seed`; the `genTriangle` call inside `init` sets it from the clock.
- The main program's window, camera, input handling and grid of meshes are not modelled. The one exception is the selectors the number keys pass to `setColor`.
