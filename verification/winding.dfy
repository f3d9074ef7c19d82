/** Directed edges of a triangle list, read the way GL_TRIANGLES reads an
    index buffer or a vertex array: entries 3t, 3t+1, 3t+2 form triangle t,
    traversed in that order, and one or two trailing entries form nothing.

    A triangle list is closed and consistently wound when its directed edges,
    counted with multiplicity, are exactly their own reverses: every edge a->b
    is walked back b->a by a neighbouring triangle. That is what back-face
    culling relies on: no triangle is wound against its neighbours. */
module Winding {

  datatype Edge<T> = Edge(from: T, to: T)

  function Reverse<T>(e: Edge<T>): Edge<T>
  {
    Edge(e.to, e.from)
  }

  function Reversed<T>(es: seq<Edge<T>>): seq<Edge<T>>
  {
    seq(|es|, i requires 0 <= i < |es| => Reverse(es[i]))
  }

  /** The three directed edges of triangle (a, b, c): a->b, b->c, c->a. */
  function TriangleEdges<T>(a: T, b: T, c: T): seq<Edge<T>>
  {
    [Edge(a, b), Edge(b, c), Edge(c, a)]
  }

  /** All directed edges of a triangle list, triangle by triangle. */
  function ListEdges<T>(list: seq<T>): (es: seq<Edge<T>>)
    ensures |es| == 3 * (|list| / 3)
    decreases |list|
  {
    if |list| < 3 then []
    else TriangleEdges(list[0], list[1], list[2]) + ListEdges(list[3..])
  }

  /** The edges of two whole triangle lists laid end to end are the edges of
      the first followed by the edges of the second. */
  lemma {:induction false} ListEdgesAppend<T>(a: seq<T>, b: seq<T>)
    requires |a| % 3 == 0
    ensures ListEdges(a + b) == ListEdges(a) + ListEdges(b)
    decreases |a|
  {
    if |a| == 0 {
      assert a + b == b;
    } else {
      assert (a + b)[3..] == a[3..] + b;
      ListEdgesAppend(a[3..], b);
    }
  }

  /** The edges of a list holding exactly two triangles. */
  lemma TwoTriangleEdges<T>(a: T, b: T, c: T, d: T, e: T, f: T)
    ensures ListEdges([a, b, c, d, e, f]) == TriangleEdges(a, b, c) + TriangleEdges(d, e, f)
  {
    assert [a, b, c, d, e, f][3..] == [d, e, f];
    assert [d, e, f][3..] == [];
  }

  /** Every directed edge is matched, with multiplicity, by its reverse. */
  ghost predicate ReverseClosed<T>(es: seq<Edge<T>>)
  {
    multiset(es) == multiset(Reversed(es))
  }

  /** No directed edge is traversed twice, stated by counting: this is the
      property the closure results promise. NoRepeatedEdge below says the
      same by positions, which is the form the proofs build up list by
      list; CountWithoutRepeats turns one into the other. */
  ghost predicate Simple<T>(es: seq<Edge<T>>)
  {
    forall e | e in es :: multiset(es)[e] == 1
  }

  /** Every directed edge of the list is walked back somewhere in the list. */
  ghost predicate EveryEdgeReversed<T>(es: seq<Edge<T>>)
  {
    forall e | e in es :: Reverse(e) in es
  }

  /** No two positions of the list hold the same directed edge: the
      positional form of Simple, used while proving it. */
  ghost predicate NoRepeatedEdge<T>(es: seq<Edge<T>>)
  {
    forall i, j :: 0 <= i < j < |es| ==> es[i] != es[j]
  }

  /** Two lists without repeats and without a common edge have none together. */
  lemma NoRepeatedEdgeAppend<T>(a: seq<Edge<T>>, b: seq<Edge<T>>)
    requires NoRepeatedEdge(a) && NoRepeatedEdge(b)
    requires Disjoint(a, b)
    ensures NoRepeatedEdge(a + b)
  {
    forall i, j | 0 <= i < j < |a + b|
      ensures (a + b)[i] != (a + b)[j]
    {
      if i < |a| && |a| <= j {
        assert (a + b)[i] in a && (a + b)[j] in b;
      }
    }
  }

  /** No edge of a occurs in b. */
  ghost predicate Disjoint<T>(a: seq<Edge<T>>, b: seq<Edge<T>>)
  {
    forall e | e in a :: e !in b
  }

  /** A list disjoint from two lists is disjoint from their concatenation. */
  lemma DisjointAppend<T>(a: seq<Edge<T>>, b: seq<Edge<T>>, c: seq<Edge<T>>)
    requires Disjoint(a, c) && Disjoint(b, c)
    ensures Disjoint(a + b, c)
  {
  }

  /** In a list without repeats every element is counted once. */
  lemma {:induction false} CountWithoutRepeats<T>(es: seq<Edge<T>>, e: Edge<T>)
    requires NoRepeatedEdge(es)
    ensures multiset(es)[e] == if e in es then 1 else 0
    decreases |es|
  {
    if |es| > 0 {
      var rest := es[1..];
      assert es == [es[0]] + rest;
      assert NoRepeatedEdge(rest) by {
        forall i, j | 0 <= i < j < |rest|
          ensures rest[i] != rest[j]
        {
          assert rest[i] == es[i + 1] && rest[j] == es[j + 1];
        }
      }
      assert es[0] !in rest by {
        forall k | 0 <= k < |rest|
          ensures rest[k] != es[0]
        {
          assert rest[k] == es[k + 1];
        }
      }
      CountWithoutRepeats(rest, e);
    }
  }

  /** A list without repeated edges in which every edge is walked back is
      closed and consistently wound, and simple. */
  lemma {:induction false} ClosedFromMatching<T>(es: seq<Edge<T>>)
    requires EveryEdgeReversed(es) && NoRepeatedEdge(es)
    ensures ReverseClosed(es) && Simple(es)
  {
    var rs := Reversed(es);
    assert NoRepeatedEdge(rs) by {
      forall i, j | 0 <= i < j < |rs|
        ensures rs[i] != rs[j]
      {
        assert es[i] != es[j];
      }
    }
    forall e
      ensures multiset(es)[e] == multiset(rs)[e]
    {
      CountWithoutRepeats(es, e);
      CountWithoutRepeats(rs, e);
      if e in es {
        var i :| 0 <= i < |es| && es[i] == e;
        assert Reverse(e) in es;
        var j :| 0 <= j < |es| && es[j] == Reverse(e);
        assert rs[j] == e;
      }
      if e in rs {
        var j :| 0 <= j < |rs| && rs[j] == e;
        assert Reverse(es[j]) == e;
        assert Reverse(es[j]) in es;
      }
    }
    assert multiset(es) == multiset(rs);
    forall e | e in es
      ensures multiset(es)[e] == 1
    {
      CountWithoutRepeats(es, e);
    }
  }

  /** In a closed, consistently wound, simple list every directed edge has
      exactly one partner walking it backwards. */
  lemma ExactlyOneReverse<T>(es: seq<Edge<T>>)
    requires ReverseClosed(es) && Simple(es)
    ensures forall i :: 0 <= i < |es| ==> multiset(es)[Reverse(es[i])] == 1
  {
    forall i | 0 <= i < |es|
      ensures multiset(es)[Reverse(es[i])] == 1
    {
      var rs := Reversed(es);
      assert rs[i] == Reverse(es[i]);
      assert Reverse(es[i]) in multiset(rs);
      assert Reverse(es[i]) in es;
    }
  }
}
