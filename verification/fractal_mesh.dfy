/** FractalMesh: midpoint-displacement terrain over a triangle soup. The
    vertex list holds whole triangles, three consecutive points each, and is
    drawn with glDrawArrays. fractalize replaces every triangle by four,
    built from its corners and three displaced edge midpoints, and scales
    the displacement down by the roughness; reset starts again from one
    triangle and the starting displacement.

    The displacement function is random in the program (it reseeds rand from
    the midpoint and the mesh's seed) and so is a parameter here, as are the
    points of the starting triangle. */
module FractalMesh {
  import opened Geometry
  import opened Winding
  import opened Wrappers
  import RenderFlags

  /** displace(a, b, displacement): a point near the midpoint of a and b,
      determined by the two points, the displacement and the mesh's seed. */
  type Displacer<!P> = (P, P, real, int) -> P

  /** How quickly the displacement decreases per level. */
  const Roughness: real := 0.5

  /** The displacement of a fresh or reset mesh. */
  const StartDisplacement: real := 1.2

  // ---------------------------------------------------------------------
  // Subdividing one triangle

  /** fractalizeTriangle: the triangle a, b, c at startIdx becomes four
      triangles (d, a, f), (b, d, e), (e, f, c) and (e, d, f), where d, e
      and f are the displaced midpoints of ab, bc and ca. */
  function FractalizeTriangle<P>(inVec: seq<P>, startIdx: nat, displacement: real, seed: int,
                                 displace: Displacer<P>): (r: seq<P>)
    requires startIdx + 2 < |inVec|
    ensures |r| == 12
  {
    var a, b, c := inVec[startIdx], inVec[startIdx + 1], inVec[startIdx + 2];
    var d := displace(a, b, displacement, seed);
    var e := displace(b, c, displacement, seed);
    var f := displace(c, a, displacement, seed);
    [d, a, f] + [b, d, e] + [e, f, c] + [e, d, f]
  }

  /** Every parent corner occurs once in the subdivision and every displaced
      midpoint three times, once in each child it borders: any point x
      occurs as often as it is a corner plus three times as often as it is
      a midpoint. */
  lemma SubdivisionCounts<P>(inVec: seq<P>, startIdx: nat, displacement: real, seed: int, displace: Displacer<P>, x: P)
    requires startIdx + 2 < |inVec|
    ensures var r := FractalizeTriangle(inVec, startIdx, displacement, seed, displace);
      var a, b, c := inVec[startIdx], inVec[startIdx + 1], inVec[startIdx + 2];
      var d, e, f := displace(a, b, displacement, seed), displace(b, c, displacement, seed), displace(c, a, displacement, seed);
      multiset(r)[x] == multiset([a, b, c])[x] + 3 * multiset([d, e, f])[x]
  {
    var a, b, c := inVec[startIdx], inVec[startIdx + 1], inVec[startIdx + 2];
    var d, e, f := displace(a, b, displacement, seed), displace(b, c, displacement, seed), displace(c, a, displacement, seed);
    var r := FractalizeTriangle(inVec, startIdx, displacement, seed, displace);
    assert multiset(r) == multiset([d, a, f]) + multiset([b, d, e]) + multiset([e, f, c]) + multiset([e, d, f]);
    CountThree(d, a, f, x);
    CountThree(b, d, e, x);
    CountThree(e, f, c, x);
    CountThree(e, d, f, x);
    CountThree(a, b, c, x);
    CountThree(d, e, f, x);
  }

  lemma CountThree<T>(p: T, q: T, r: T, x: T)
    ensures multiset([p, q, r])[x] == (if p == x then 1 else 0) + (if q == x then 1 else 0) + (if r == x then 1 else 0)
  {
    assert multiset([p, q, r]) == multiset{p} + multiset{q} + multiset{r};
  }

  /** The corners of triangle t of a list, as a set. */
  function TriangleCorners<P>(list: seq<P>, t: nat): set<P>
    requires 3 * t + 2 < |list|
  {
    {list[3 * t], list[3 * t + 1], list[3 * t + 2]}
  }

  /** Each corner of the parent keeps a child made of that corner and the
      midpoints of its two edges; the fourth child is the three midpoints. */
  lemma ChildTriangles<P>(inVec: seq<P>, startIdx: nat, displacement: real, seed: int, displace: Displacer<P>)
    requires startIdx + 2 < |inVec|
    ensures var r := FractalizeTriangle(inVec, startIdx, displacement, seed, displace);
      var a, b, c := inVec[startIdx], inVec[startIdx + 1], inVec[startIdx + 2];
      var d, e, f := displace(a, b, displacement, seed), displace(b, c, displacement, seed), displace(c, a, displacement, seed);
      && TriangleCorners(r, 0) == {a, d, f}
      && TriangleCorners(r, 1) == {b, d, e}
      && TriangleCorners(r, 2) == {c, e, f}
      && TriangleCorners(r, 3) == {d, e, f}
  {
  }

  /** The parent's outline a -> b -> c -> a, split at the midpoints. */
  function SplitOutline<P>(a: P, b: P, c: P, d: P, e: P, f: P): seq<Edge<P>>
  {
    [Edge(a, d), Edge(d, b), Edge(b, e), Edge(e, c), Edge(c, f), Edge(f, a)]
  }

  /** The edges between the midpoints. */
  function InnerEdges<P>(d: P, e: P, f: P): seq<Edge<P>>
  {
    [Edge(d, e), Edge(e, f), Edge(f, d)]
  }

  /** The twelve directed edges of the four children, child by child. */
  function ChildEdges<P>(a: P, b: P, c: P, d: P, e: P, f: P): seq<Edge<P>>
  {
    TriangleEdges(d, a, f) + TriangleEdges(b, d, e) + TriangleEdges(e, f, c) + TriangleEdges(e, d, f)
  }

  lemma SubdivisionEdges<P>(inVec: seq<P>, startIdx: nat, displacement: real, seed: int, displace: Displacer<P>)
    requires startIdx + 2 < |inVec|
    ensures var a, b, c := inVec[startIdx], inVec[startIdx + 1], inVec[startIdx + 2];
      var d, e, f := displace(a, b, displacement, seed), displace(b, c, displacement, seed), displace(c, a, displacement, seed);
      ListEdges(FractalizeTriangle(inVec, startIdx, displacement, seed, displace)) == ChildEdges(a, b, c, d, e, f)
  {
    var a, b, c := inVec[startIdx], inVec[startIdx + 1], inVec[startIdx + 2];
    var d, e, f := displace(a, b, displacement, seed), displace(b, c, displacement, seed), displace(c, a, displacement, seed);
    TwoTriangleEdges(d, a, f, b, d, e);
    TwoTriangleEdges(e, f, c, e, d, f);
    ListEdgesAppend([d, a, f, b, d, e], [e, f, c, e, d, f]);
    assert [d, a, f] + [b, d, e] + [e, f, c] + [e, d, f] == [d, a, f, b, d, e] + [e, f, c, e, d, f];
  }

  /** The winding of the four children. Every inner edge is walked in both
      directions, so the children are consistently wound among themselves,
      and the parent's outline is walked backwards: all four children face
      the opposite way from their parent. FractalMesh never enables
      back-face culling, so this hides no triangle. */
  lemma ChildWinding<P>(inVec: seq<P>, startIdx: nat, displacement: real, seed: int, displace: Displacer<P>)
    requires startIdx + 2 < |inVec|
    ensures var es := ListEdges(FractalizeTriangle(inVec, startIdx, displacement, seed, displace));
      var a, b, c := inVec[startIdx], inVec[startIdx + 1], inVec[startIdx + 2];
      var d, e, f := displace(a, b, displacement, seed), displace(b, c, displacement, seed), displace(c, a, displacement, seed);
      && |es| == 12
      && (forall k :: 0 <= k < 3 ==> InnerEdges(d, e, f)[k] in es && Reverse(InnerEdges(d, e, f)[k]) in es)
      && (forall k :: 0 <= k < 6 ==> Reverse(SplitOutline(a, b, c, d, e, f)[k]) in es)
  {
    SubdivisionEdges(inVec, startIdx, displacement, seed, displace);
  }

  /** When the six points differ, no child walks the parent's outline
      forwards. */
  lemma ChildrenOppositeParent<P>(inVec: seq<P>, startIdx: nat, displacement: real, seed: int, displace: Displacer<P>)
    requires startIdx + 2 < |inVec|
    requires var a, b, c := inVec[startIdx], inVec[startIdx + 1], inVec[startIdx + 2];
      Distinct6(a, b, c, displace(a, b, displacement, seed), displace(b, c, displacement, seed), displace(c, a, displacement, seed))
    ensures var es := ListEdges(FractalizeTriangle(inVec, startIdx, displacement, seed, displace));
      var a, b, c := inVec[startIdx], inVec[startIdx + 1], inVec[startIdx + 2];
      var d, e, f := displace(a, b, displacement, seed), displace(b, c, displacement, seed), displace(c, a, displacement, seed);
      forall k :: 0 <= k < 6 ==> SplitOutline(a, b, c, d, e, f)[k] !in es
  {
    SubdivisionEdges(inVec, startIdx, displacement, seed, displace);
  }

  /** Six pairwise different points. Unlike Primitives.Distinct, which
      speaks of integer indices in a sequence, this is about points of any
      type, named one by one. */
  predicate Distinct6<P(==)>(a: P, b: P, c: P, d: P, e: P, f: P)
  {
    && a != b && a != c && a != d && a != e && a != f
    && b != c && b != d && b != e && b != f
    && c != d && c != e && c != f
    && d != e && d != f
    && e != f
  }

  // ---------------------------------------------------------------------
  // Subdividing the whole list

  /** The twelve points that subdivision t occupies in the output. */
  function Block<P>(outVec: seq<P>, t: nat): seq<P>
    requires 12 * t + 12 <= |outVec|
  {
    outVec[12 * t .. 12 * t + 12]
  }

  /** The subdivisions of the first n triangles of inVec, in order. */
  function FractalizeFirst<P>(inVec: seq<P>, n: nat, displacement: real, seed: int, displace: Displacer<P>): (outVec: seq<P>)
    requires 3 * n <= |inVec|
    ensures |outVec| == 12 * n
  {
    if n == 0 then []
    else FractalizeFirst(inVec, n - 1, displacement, seed, displace) + FractalizeTriangle(inVec, 3 * (n - 1), displacement, seed, displace)
  }

  /** Block t of the first n subdivisions is the subdivision of triangle t. */
  lemma {:induction false} FractalizeFirstBlocks<P>(inVec: seq<P>, n: nat, displacement: real, seed: int, displace: Displacer<P>)
    requires 3 * n <= |inVec|
    ensures var outVec := FractalizeFirst(inVec, n, displacement, seed, displace);
      forall t: nat :: t < n ==> Block(outVec, t) == FractalizeTriangle(inVec, 3 * t, displacement, seed, displace)
  {
    if n > 0 {
      var front := FractalizeFirst(inVec, n - 1, displacement, seed, displace);
      var last := FractalizeTriangle(inVec, 3 * (n - 1), displacement, seed, displace);
      FractalizeFirstBlocks(inVec, n - 1, displacement, seed, displace);
      assert forall t: nat :: t < n - 1 ==> Block(front + last, t) == Block(front, t);
      assert Block(front + last, n - 1) == last;
    }
  }

  /** fractalizeTriangles: every whole triangle of inVec (starting indices
      0, 3, 6, ... while i + 2 < size) is subdivided and the results are
      appended in order; one or two trailing points are dropped. */
  function FractalizeTriangles<P>(inVec: seq<P>, displacement: real, seed: int, displace: Displacer<P>): (outVec: seq<P>)
    ensures |outVec| == 12 * (|inVec| / 3)
  {
    FractalizeFirst(inVec, |inVec| / 3, displacement, seed, displace)
  }

  /** Twelve points per whole triangle, block t being the subdivision of
      triangle t. */
  lemma FractalizeTrianglesBlocks<P>(inVec: seq<P>, displacement: real, seed: int, displace: Displacer<P>)
    ensures var outVec := FractalizeTriangles(inVec, displacement, seed, displace);
      && |outVec| == 12 * (|inVec| / 3)
      && forall t: nat :: t < |inVec| / 3 ==> Block(outVec, t) == FractalizeTriangle(inVec, 3 * t, displacement, seed, displace)
  {
    FractalizeFirstBlocks(inVec, |inVec| / 3, displacement, seed, displace);
  }

  /** The loop of fractalizeTriangles as written: i runs over 0, 3, 6, ...
      while i + 2 < inVec.size(), and each iteration appends one
      subdivision. It computes the same list as FractalizeTriangles. */
  method FractalizeTrianglesLoop<P>(inVec: seq<P>, displacement: real, seed: int, displace: Displacer<P>)
    returns (outVec: seq<P>)
    ensures |outVec| == 12 * (|inVec| / 3)
    ensures outVec == FractalizeTriangles(inVec, displacement, seed, displace)
  {
    outVec := [];
    var i, t := 0, 0;
    while i + 2 < |inVec|
      invariant i == 3 * t && i <= |inVec|
      invariant outVec == FractalizeFirst(inVec, t, displacement, seed, displace)
      decreases |inVec| - i
    {
      var tempVec := FractalizeTriangle(inVec, i, displacement, seed, displace);
      assert FractalizeFirst(inVec, t + 1, displacement, seed, displace) == outVec + tempVec;
      outVec := outVec + tempVec;
      i, t := i + 3, t + 1;
    }
    assert t == |inVec| / 3;
  }

  /** Trailing points that do not make a whole triangle change nothing. */
  lemma LeftoversDropped<P>(inVec: seq<P>, displacement: real, seed: int, displace: Displacer<P>)
    ensures FractalizeTriangles(inVec, displacement, seed, displace)
         == FractalizeTriangles(inVec[..3 * (|inVec| / 3)], displacement, seed, displace)
  {
    var whole := inVec[..3 * (|inVec| / 3)];
    var r1 := FractalizeTriangles(inVec, displacement, seed, displace);
    var r2 := FractalizeTriangles(whole, displacement, seed, displace);
    assert |whole| / 3 == |inVec| / 3;
    FractalizeTrianglesBlocks(inVec, displacement, seed, displace);
    FractalizeTrianglesBlocks(whole, displacement, seed, displace);
    forall n | 0 <= n < |r1|
      ensures r1[n] == r2[n]
    {
      var t := n / 12;
      assert 12 * t <= n < 12 * t + 12;
      assert r1[n] == Block(r1, t)[n - 12 * t];
      assert r2[n] == Block(r2, t)[n - 12 * t];
      assert FractalizeTriangle(inVec, 3 * t, displacement, seed, displace)
          == FractalizeTriangle(whole, 3 * t, displacement, seed, displace);
    }
  }

  // ---------------------------------------------------------------------
  // The mesh state: fractalize, reset, setColor and the render flags

  datatype Mesh<P> = Mesh(
    fractalVertVec: seq<P>,
    displacement: real,
    seed: int,
    colorSelector: int,
    colorType: int,
    variableColors: bool,
    flags: RenderFlags.Flags)

  /** init: both render flags on, the colour style and the random-colour
      switch stored, a fresh triangle a, b, c generated with the seed
      genTriangle draws from the clock. The displacement is the member
      initialiser's startDisplacement, and colorSelector is zero because
      every mesh of the program lives in a global array. */
  function Init<P>(a: P, b: P, c: P, clockSeed: int, colorStyle: int, randomColors: bool): (m: Mesh<P>)
    ensures m.fractalVertVec == [a, b, c]
    ensures m.displacement == StartDisplacement
    ensures m.flags == RenderFlags.Initial
    ensures m.seed == clockSeed
    ensures m.colorSelector == 0 && m.colorType == colorStyle && m.variableColors == randomColors
  {
    Mesh([a, b, c], StartDisplacement, clockSeed, 0, colorStyle, randomColors, RenderFlags.Initial)
  }

  /** fractalize: subdivide every triangle with the current displacement
      and the mesh's seed, then scale the displacement by the roughness. */
  function Fractalize<P>(m: Mesh<P>, displace: Displacer<P>): (r: Mesh<P>)
    ensures |r.fractalVertVec| == 12 * (|m.fractalVertVec| / 3)
    ensures r.displacement == m.displacement * Roughness
    ensures r.seed == m.seed && r.colorSelector == m.colorSelector && r.flags == m.flags
  {
    m.(fractalVertVec := FractalizeTriangles(m.fractalVertVec, m.displacement, m.seed, displace),
       displacement := m.displacement * Roughness)
  }

  /** The new points of fractalize are the subdivisions of the old
      triangles in order, made with the displacement before it is scaled
      down and with the mesh's seed. */
  lemma FractalizeSubdivides<P>(m: Mesh<P>, displace: Displacer<P>)
    ensures var r := Fractalize(m, displace);
      forall t: nat :: t < |m.fractalVertVec| / 3 ==>
        Block(r.fractalVertVec, t) == FractalizeTriangle(m.fractalVertVec, 3 * t, m.displacement, m.seed, displace)
  {
    FractalizeTrianglesBlocks(m.fractalVertVec, m.displacement, m.seed, displace);
  }

  /** reset: a new triangle a, b, c (genTriangle, which also takes a new seed
      from the clock) and the starting displacement; the colour selector and
      the render flags are kept. */
  function Reset<P>(m: Mesh<P>, a: P, b: P, c: P, clockSeed: int): (r: Mesh<P>)
    ensures r.fractalVertVec == [a, b, c]
    ensures r.displacement == StartDisplacement
    ensures r.seed == clockSeed
    ensures r.colorSelector == m.colorSelector && r.flags == m.flags
    ensures r.colorType == m.colorType && r.variableColors == m.variableColors
  {
    m.(fractalVertVec := [a, b, c], displacement := StartDisplacement, seed := clockSeed)
  }

  /** fractalize applied k times. */
  function FractalizeTimes<P>(m: Mesh<P>, k: nat, displace: Displacer<P>): Mesh<P>
  {
    Iterate((x: Mesh<P>) => Fractalize(x, displace), m, k)
  }

  /** step applied k times to s. */
  function Iterate<S>(step: S -> S, s: S, k: nat): S
    decreases k
  {
    if k == 0 then s else Iterate(step, step(s), k - 1)
  }

  function Pow(x: real, k: nat): real
  {
    if k == 0 then 1.0 else x * Pow(x, k - 1)
  }

  function Pow4(k: nat): nat
  {
    if k == 0 then 1 else 4 * Pow4(k - 1)
  }

  /** k + 1 steps are k steps followed by one more. */
  lemma {:induction false} IterateLast<S>(step: S -> S, s: S, k: nat)
    ensures Iterate(step, s, k + 1) == step(Iterate(step, s, k))
    decreases k
  {
    if k > 0 {
      IterateLast(step, step(s), k - 1);
    }
  }

  /** A measure every step leaves alone is left alone by k steps. */
  lemma {:induction false} IterateKeeps<S, T>(step: S -> S, f: S -> T, s: S, k: nat)
    requires forall x :: f(step(x)) == f(x)
    ensures f(Iterate(step, s, k)) == f(s)
    decreases k
  {
    if k > 0 {
      IterateKeeps(step, f, step(s), k - 1);
    }
  }

  /** A measure every step multiplies by r is multiplied by r^k by k steps. */
  lemma {:induction false} IterateScales<S>(step: S -> S, g: S -> real, r: real, s: S, k: nat)
    requires forall x :: g(step(x)) == g(x) * r
    ensures g(Iterate(step, s, k)) == g(s) * Pow(r, k)
    decreases k
  {
    if k > 0 {
      IterateScales(step, g, r, step(s), k - 1);
      RealMulAssoc(g(s), r, Pow(r, k - 1));
    }
  }

  /** A length every step takes from 3t to 12t is taken from 3t to 3 * 4^k * t
      by k steps. */
  lemma {:induction false} IterateQuadruples<S>(step: S -> S, len: S -> nat, s: S, t: nat, k: nat)
    requires forall x :: len(step(x)) == 12 * (len(x) / 3)
    requires len(s) == 3 * t
    ensures len(Iterate(step, s, k)) == 3 * (t * Pow4(k))
    decreases k
  {
    if k > 0 {
      assert len(s) / 3 == t;
      IterateQuadruples(step, len, step(s), 4 * t, k - 1);
      MulRegroup(t, 4, Pow4(k - 1));
    }
  }

  /** k fractalizes of a list of whole triangles multiply its length by 4^k
      and its displacement by roughness^k; the list stays whole triangles. */
  lemma FractalizeTimesGrowth<P>(m: Mesh<P>, k: nat, displace: Displacer<P>)
    requires |m.fractalVertVec| % 3 == 0
    ensures |FractalizeTimes(m, k, displace).fractalVertVec| == |m.fractalVertVec| * Pow4(k)
    ensures |FractalizeTimes(m, k, displace).fractalVertVec| % 3 == 0
    ensures FractalizeTimes(m, k, displace).displacement == m.displacement * Pow(Roughness, k)
  {
    FractalizeTimesLength(m, k, displace);
    WholeTimes(|m.fractalVertVec|, Pow4(k));
    FractalizeTimesDisplacement(m, k, displace);
  }

  lemma WholeTimes(n: nat, p: nat)
    requires n % 3 == 0
    ensures 3 * ((n / 3) * p) == n * p
  {
    MulRegroup(3, n / 3, p);
  }

  lemma FractalizeTimesLength<P>(m: Mesh<P>, k: nat, displace: Displacer<P>)
    requires |m.fractalVertVec| % 3 == 0
    ensures |FractalizeTimes(m, k, displace).fractalVertVec| == 3 * ((|m.fractalVertVec| / 3) * Pow4(k))
  {
    var step := (x: Mesh<P>) => Fractalize(x, displace);
    var len := (x: Mesh<P>) => |x.fractalVertVec|;
    assert forall x :: len(step(x)) == 12 * (len(x) / 3);
    IterateQuadruples(step, len, m, |m.fractalVertVec| / 3, k);
  }

  lemma FractalizeTimesDisplacement<P>(m: Mesh<P>, k: nat, displace: Displacer<P>)
    ensures FractalizeTimes(m, k, displace).displacement == m.displacement * Pow(Roughness, k)
  {
    var step := (x: Mesh<P>) => Fractalize(x, displace);
    var g := (x: Mesh<P>) => x.displacement;
    assert forall x :: g(step(x)) == g(x) * Roughness;
    IterateScales(step, g, Roughness, m, k);
  }

  /** Associativity together with commutativity of the first two factors. */
  lemma MulRegroup(a: int, b: int, c: int)
    ensures a * (b * c) == (b * a) * c
  {
  }

  lemma RealMulAssoc(a: real, b: real, c: real)
    ensures a * (b * c) == (a * b) * c
  {
  }

  /** After a reset and k fractalizes the mesh holds 3 * 4^k points, whole
      triangles only, and its displacement is startDisplacement * roughness^k. */
  lemma ResetThenFractalize<P>(m: Mesh<P>, a: P, b: P, c: P, clockSeed: int, k: nat, displace: Displacer<P>)
    ensures var r := FractalizeTimes(Reset(m, a, b, c, clockSeed), k, displace);
      && |r.fractalVertVec| == 3 * Pow4(k)
      && DrawCount(r) % 3 == 0
      && r.displacement == StartDisplacement * Pow(Roughness, k)
  {
    FractalizeTimesGrowth(Reset(m, a, b, c, clockSeed), k, displace);
  }

  /** Whatever the list held before, fractalize leaves whole triangles. */
  lemma FractalizeWholeTriangles<P>(m: Mesh<P>, displace: Displacer<P>)
    ensures |Fractalize(m, displace).fractalVertVec| % 3 == 0
  {
  }

  /** The count glDrawArrays draws: the number of points. */
  function DrawCount<P>(m: Mesh<P>): nat
  {
    |m.fractalVertVec|
  }

  /** The points glDrawArrays draws are exactly those uploaded: the vertex
      buffer holds three floats for each of them. */
  lemma DrawCountMatchesUpload(m: Mesh<Vec3<real>>)
    ensures var vertArr := Flatten(m.fractalVertVec);
      && 3 * DrawCount(m) == |vertArr|
      && Unflatten(vertArr) == m.fractalVertVec
  {
    UnflattenFlatten(m.fractalVertVec);
  }

  /** Level k + 1 after a reset subdivides level k's points with
      displacement startDisplacement * roughness^k and the reset's seed. */
  lemma ResetThenFractalizeLevel<P>(m: Mesh<P>, a: P, b: P, c: P, clockSeed: int, k: nat, displace: Displacer<P>)
    ensures var before := FractalizeTimes(Reset(m, a, b, c, clockSeed), k, displace);
      var after := FractalizeTimes(Reset(m, a, b, c, clockSeed), k + 1, displace);
      && |before.fractalVertVec| == 3 * Pow4(k)
      && |after.fractalVertVec| == 12 * Pow4(k)
      && forall t: nat :: t < Pow4(k) ==>
           Block(after.fractalVertVec, t)
           == FractalizeTriangle(before.fractalVertVec, 3 * t, StartDisplacement * Pow(Roughness, k), clockSeed, displace)
  {
    var start := Reset(m, a, b, c, clockSeed);
    var step := (x: Mesh<P>) => Fractalize(x, displace);
    var before := FractalizeTimes(start, k, displace);
    IterateLast(step, start, k);
    ResetThenFractalize(m, a, b, c, clockSeed, k, displace);
    FractalizeTimesKeeps(start, k, displace);
    FractalizeSubdivides(before, displace);
    assert FractalizeTimes(start, k + 1, displace) == Fractalize(before, displace);
  }

  /** reset forgets every earlier fractalize: the state it leaves depends
      only on the colour selector, colour settings and flags it keeps. */
  lemma ResetForgetsLevel<P>(m: Mesh<P>, a: P, b: P, c: P, clockSeed: int, k: nat, displace: Displacer<P>)
    ensures Reset(FractalizeTimes(m, k, displace), a, b, c, clockSeed) == Reset(m, a, b, c, clockSeed)
  {
    FractalizeTimesKeeps(m, k, displace);
  }

  /** fractalize changes only the points and the displacement. */
  lemma FractalizeTimesKeeps<P>(m: Mesh<P>, k: nat, displace: Displacer<P>)
    ensures var r := FractalizeTimes(m, k, displace);
      && r.seed == m.seed && r.colorSelector == m.colorSelector && r.colorType == m.colorType
      && r.variableColors == m.variableColors && r.flags == m.flags
  {
    IterateKeeps((x: Mesh<P>) => Fractalize(x, displace),
                 (x: Mesh<P>) => (x.seed, x.colorSelector, x.colorType, x.variableColors, x.flags), m, k);
  }

  function ToggleWireframe<P>(m: Mesh<P>): (r: Mesh<P>)
    ensures r.flags == RenderFlags.ToggleWireframe(m.flags)
    ensures r.fractalVertVec == m.fractalVertVec && r.displacement == m.displacement
    ensures r.seed == m.seed && r.colorSelector == m.colorSelector
    ensures r.colorType == m.colorType && r.variableColors == m.variableColors
  {
    m.(flags := RenderFlags.ToggleWireframe(m.flags))
  }

  function ToggleFaces<P>(m: Mesh<P>): (r: Mesh<P>)
    ensures r.flags == RenderFlags.ToggleFaces(m.flags)
    ensures r.fractalVertVec == m.fractalVertVec && r.displacement == m.displacement
    ensures r.seed == m.seed && r.colorSelector == m.colorSelector
    ensures r.colorType == m.colorType && r.variableColors == m.variableColors
  {
    m.(flags := RenderFlags.ToggleFaces(m.flags))
  }

  // ---------------------------------------------------------------------
  // Vertex and colour buffers

  /** pointVecToArr: component c of point i goes to entry 3i + c, and
      exactly the first 3 * |source| entries are written. */
  method PointVecToArr(source: seq<Vec3<real>>) returns (vertArr: seq<real>)
    ensures |vertArr| == 3 * |source|
    ensures forall i, c :: 0 <= i < |source| && 0 <= c < 3 ==> vertArr[3 * i + c] == source[i].Component(c)
    ensures vertArr == Flatten(source)
  {
    vertArr := [];
    var i := 0;
    while i < |source|
      invariant 0 <= i <= |source|
      invariant |vertArr| == 3 * i
      invariant forall j, c :: 0 <= j < i && 0 <= c < 3 ==> vertArr[3 * j + c] == source[j].Component(c)
    {
      vertArr := vertArr + [source[i].x, source[i].y, source[i].z];
      i := i + 1;
    }
    FlattenUnique(source, vertArr);
  }

  /** The 3i + c layout determines the array. */
  lemma FlattenUnique(points: seq<Vec3<real>>, arr: seq<real>)
    requires |arr| == 3 * |points|
    requires forall i, c :: 0 <= i < |points| && 0 <= c < 3 ==> arr[3 * i + c] == points[i].Component(c)
    ensures arr == Flatten(points)
  {
    var flat := Flatten(points);
    forall n | 0 <= n < |arr|
      ensures arr[n] == flat[n]
    {
      var i, c := n / 3, n % 3;
      assert n == 3 * i + c;
      assert flat[3 * i + c] == points[i].Component(c);
      assert arr[3 * i + c] == points[i].Component(c);
    }
  }

  /** setColorArray: the colour generateColor picks for point i (from the
      point, the palette and the random draws, all left to the parameter
      generate) goes to entries 3i, 3i + 1, 3i + 2. */
  method SetColorArray(source: seq<Vec3<real>>, palette: seq<real>, generate: (Vec3<real>, seq<real>, nat) -> Vec3<real>)
    returns (colorArr: seq<real>)
    ensures |colorArr| == 3 * |source|
    ensures forall i, c :: 0 <= i < |source| && 0 <= c < 3 ==> colorArr[3 * i + c] == generate(source[i], palette, i).Component(c)
  {
    colorArr := [];
    var i := 0;
    while i < |source|
      invariant 0 <= i <= |source|
      invariant |colorArr| == 3 * i
      invariant forall j, c :: 0 <= j < i && 0 <= c < 3 ==> colorArr[3 * j + c] == generate(source[j], palette, j).Component(c)
    {
      var color := generate(source[i], palette, i);
      colorArr := colorArr + [color.x, color.y, color.z];
      i := i + 1;
    }
  }

  /** colorPalettes: four palettes of nine floats (three colours each) laid
      end to end. In palettes 0, 1 and 3 the third colour is the second
      minus the first; in palette 2 it is not. */
  const ColorPalettes: seq<real> := [
    0.1500, 0.1500, 0.3647,
    0.7400, 0.7500, 0.7800,
    0.5900, 0.6000, 0.4153,
    0.3215, 0.2470, 0.4941,
    0.4431, 0.4863, 0.7568,
    0.1216, 0.2393, 0.2627,
    0.4000, 0.7000, 0.3000,
    0.7686, 0.8274, 0.8941,
    0.2745, 0.0431, 0.5804,
    0.0000, 0.0000, 0.0000,
    0.0000, 1.0000, 0.0000,
    0.0000, 1.0000, 0.0000]

  /** Every read setColorData makes, colorPalettes[i + colorSelector * 9]
      for i in 0..8, lies inside the table. */
  predicate PaletteReadsInBounds(colorSelector: int)
  {
    forall i :: 0 <= i < 9 ==> 0 <= PaletteIndex(i, colorSelector) < |ColorPalettes|
  }

  /** The entry setColorData reads for palette entry i. */
  function PaletteIndex(i: int, colorSelector: int): int
  {
    i + colorSelector * 9
  }

  /** The reads stay inside the 36-entry table exactly for selectors 0 to 3. */
  lemma PaletteBounds(colorSelector: int)
    ensures PaletteReadsInBounds(colorSelector) <==> 0 <= colorSelector <= 3
  {
    if PaletteReadsInBounds(colorSelector) {
      assert 0 <= PaletteIndex(0, colorSelector);
      assert PaletteIndex(8, colorSelector) < 36;
    }
  }

  /** The palette copy at the top of setColorData; None where the program
      would read outside colorPalettes. */
  function CurrentPalette(colorSelector: int): (palette: Option<seq<real>>)
    ensures palette.Some? <==> 0 <= colorSelector <= 3
    ensures palette.Some? ==> |palette.value| == 9
    ensures palette.Some? ==> forall i :: 0 <= i < 9 ==> palette.value[i] == ColorPalettes[i + colorSelector * 9]
  {
    PaletteBounds(colorSelector);
    if PaletteReadsInBounds(colorSelector) then
      Some(seq(9, i requires 0 <= i < 9 => ColorPalettes[PaletteIndex(i, colorSelector)]))
    else
      None
  }

  /** The selectors the key handlers pass to setColor. */
  const KeySelectors: seq<int> := [0, 1, 2, 3]

  /** Every selector a key can set reads a whole palette, and the four keys
      reach all four palettes. */
  lemma KeySelectorsInBounds()
    ensures forall k :: 0 <= k < |KeySelectors| ==> CurrentPalette(KeySelectors[k]).Some?
    ensures forall s :: CurrentPalette(s).Some? <==> s in KeySelectors
  {
  }

  /** setColorData: copy the selected palette, then colour every point of
      the mesh with it. None where the palette copy would read outside
      colorPalettes; otherwise three floats per point. */
  method SetColorData(m: Mesh<Vec3<real>>, generate: (Vec3<real>, seq<real>, nat) -> Vec3<real>)
    returns (colorData: Option<seq<real>>)
    ensures colorData.Some? <==> 0 <= m.colorSelector <= 3
    ensures colorData.Some? ==> |colorData.value| == 3 * |m.fractalVertVec|
    ensures colorData.Some? ==> forall i, c :: 0 <= i < |m.fractalVertVec| && 0 <= c < 3 ==>
      colorData.value[3 * i + c] == generate(m.fractalVertVec[i], CurrentPalette(m.colorSelector).value, i).Component(c)
  {
    var palette := CurrentPalette(m.colorSelector);
    if palette.None? {
      return None;
    }
    var colorArr := SetColorArray(m.fractalVertVec, palette.value, generate);
    colorData := Some(colorArr);
  }

  /** setColor: store the selector (the colour buffer is then rebuilt from it). */
  function SetColor<P>(m: Mesh<P>, idx: int): (r: Mesh<P>)
    ensures r.colorSelector == idx
    ensures r.fractalVertVec == m.fractalVertVec && r.displacement == m.displacement && r.flags == m.flags
    ensures r.seed == m.seed && r.colorType == m.colorType && r.variableColors == m.variableColors
  {
    m.(colorSelector := idx)
  }

  /** Only the last setColor matters, and setting the selector already in
      use changes nothing. */
  lemma SetColorLastWins<P>(m: Mesh<P>, first: int, second: int)
    ensures SetColor(SetColor(m, first), second) == SetColor(m, second)
    ensures SetColor(m, m.colorSelector) == m
  {
  }

  /** setColor and the render toggles touch different fields, so they
      commute. */
  lemma SetColorCommutes<P>(m: Mesh<P>, idx: int)
    ensures SetColor(ToggleWireframe(m), idx) == ToggleWireframe(SetColor(m, idx))
    ensures SetColor(ToggleFaces(m), idx) == ToggleFaces(SetColor(m, idx))
  {
  }
}
