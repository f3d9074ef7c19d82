/** Three-component vectors and the interleaved buffer layout shared by every
    vertex and colour buffer of the program: point i occupies entries 3i, 3i+1
    and 3i+2 (x, y, z). glm::vec3, glm::ivec3 and Vector3 are all Vec3 here. */
module Geometry {

  datatype Vec3<T> = Vec3(x: T, y: T, z: T) {

    /** Component c of the vector: 0 is x, 1 is y, 2 is z. */
    function Component(c: nat): T
      requires c < 3
    {
      if c == 0 then x else if c == 1 then y else z
    }
  }

  /** Copies a list of points into a flat array, three entries per point. */
  function Flatten<T>(points: seq<Vec3<T>>): (arr: seq<T>)
    ensures |arr| == 3 * |points|
    ensures forall i, c :: 0 <= i < |points| && 0 <= c < 3 ==> arr[3 * i + c] == points[i].Component(c)
  {
    if |points| == 0 then []
    else
      var last := points[|points| - 1];
      Flatten(points[..|points| - 1]) + [last.x, last.y, last.z]
  }

  /** Reads a flat array back as points, three entries per point. */
  function Unflatten<T>(arr: seq<T>): (points: seq<Vec3<T>>)
    requires |arr| % 3 == 0
  {
    seq(|arr| / 3, i requires 0 <= i < |arr| / 3 => Vec3(arr[3 * i], arr[3 * i + 1], arr[3 * i + 2]))
  }

  /** Flattening loses nothing: reading the array back gives the points. */
  lemma UnflattenFlatten<T>(points: seq<Vec3<T>>)
    ensures Unflatten(Flatten(points)) == points
  {
    var arr := Flatten(points);
    var back := Unflatten(arr);
    assert |back| == |points|;
    forall i | 0 <= i < |points|
      ensures back[i] == points[i]
    {
      assert arr[3 * i + 0] == points[i].Component(0);
      assert arr[3 * i + 1] == points[i].Component(1);
      assert arr[3 * i + 2] == points[i].Component(2);
    }
  }

  /** Every array whose length is a multiple of three is the flattening of its points. */
  lemma FlattenUnflatten<T>(arr: seq<T>)
    requires |arr| % 3 == 0
    ensures Flatten(Unflatten(arr)) == arr
  {
    var points := Unflatten(arr);
    var back := Flatten(points);
    assert |back| == |arr|;
    forall n | 0 <= n < |arr|
      ensures back[n] == arr[n]
    {
      var i, c := n / 3, n % 3;
      assert n == 3 * i + c;
      assert back[3 * i + c] == points[i].Component(c);
    }
  }

  /** The same colour repeated for each of n vertices. */
  function Repeat<T>(v: Vec3<T>, n: nat): seq<Vec3<T>>
  {
    seq(n, _ => v)
  }
}
