/**
 * `match_relationships`: the undirected relationship graph, from object id to the
 * set of ids related to it, and the order in which Python's sets hand out their members.
 */
module Graph {
  import opened Wrappers
  import opened Strings
  import opened Stix

  /** Every id that occurs as an endpoint of some relationship. */
  function Endpoints(rels: seq<Relationship>): set<Id> {
    (set r | r in rels :: r.sourceRef) + (set r | r in rels :: r.targetRef)
  }

  /** The ids joined to `x` by some relationship, in either direction. */
  function Neighbours(rels: seq<Relationship>, x: Id): set<Id> {
    (set r | r in rels && r.sourceRef == x :: r.targetRef) + (set r | r in rels && r.targetRef == x :: r.sourceRef)
  }

  /** Some relationship joins `x` and `y`, in one direction or the other. */
  predicate Linked(rels: seq<Relationship>, x: Id, y: Id) {
    exists r :: r in rels && ((r.sourceRef == x && r.targetRef == y) || (r.sourceRef == y && r.targetRef == x))
  }

  /** The reference graph: one neighbour set per endpoint. */
  function GraphOf(rels: seq<Relationship>): map<Id, set<Id>> {
    map x | x in Endpoints(rels) :: Neighbours(rels, x)
  }

  lemma EndpointsSnoc(rels: seq<Relationship>, r: Relationship)
    ensures Endpoints(rels + [r]) == Endpoints(rels) + {r.sourceRef, r.targetRef}
  {
    var rs := rels + [r];
    assert forall q :: q in rs <==> q in rels || q == r;
  }

  lemma NeighboursSnoc(rels: seq<Relationship>, r: Relationship, x: Id)
    ensures Neighbours(rels + [r], x) ==
      Neighbours(rels, x) + (if r.sourceRef == x then {r.targetRef} else {}) + (if r.targetRef == x then {r.sourceRef} else {})
  {
    var rs := rels + [r];
    assert forall q :: q in rs <==> q in rels || q == r;
  }

  lemma NeighbouredOnlyIfEndpoint(rels: seq<Relationship>, x: Id)
    ensures Neighbours(rels, x) != {} ==> x in Endpoints(rels)
  {
    if y :| y in Neighbours(rels, x) {
      var q :| q in rels && ((q.sourceRef == x && q.targetRef == y) || (q.targetRef == x && q.sourceRef == y));
    }
  }

  /** The graph with `v` added to the set of `k`, the set created when `k` is new. */
  function Insert(g: map<Id, set<Id>>, k: Id, v: Id): map<Id, set<Id>> {
    if k in g then g[k := g[k] + {v}] else g[k := {v}]
  }

  /** The set of `x` in `g`, empty when `x` is not a key. */
  function SetOf(g: map<Id, set<Id>>, x: Id): set<Id> {
    if x in g then g[x] else {}
  }

  lemma InsertSetOf(g: map<Id, set<Id>>, k: Id, v: Id, x: Id)
    ensures Insert(g, k, v).Keys == g.Keys + {k}
    ensures SetOf(Insert(g, k, v), x) == SetOf(g, x) + (if x == k then {v} else {})
  {
  }

  lemma GraphSetOf(rels: seq<Relationship>, x: Id)
    ensures SetOf(GraphOf(rels), x) == Neighbours(rels, x)
  {
    NeighbouredOnlyIfEndpoint(rels, x);
  }

  /** Adding one relationship to the input adds its two directions to the graph. */
  lemma GraphOfSnoc(rels: seq<Relationship>, r: Relationship)
    ensures GraphOf(rels + [r]) == Insert(Insert(GraphOf(rels), r.sourceRef, r.targetRef), r.targetRef, r.sourceRef)
  {
    var g1 := Insert(GraphOf(rels), r.sourceRef, r.targetRef);
    var g := Insert(g1, r.targetRef, r.sourceRef);
    EndpointsSnoc(rels, r);
    InsertSetOf(GraphOf(rels), r.sourceRef, r.targetRef, r.sourceRef);
    InsertSetOf(g1, r.targetRef, r.sourceRef, r.sourceRef);
    assert g.Keys == Endpoints(rels + [r]);
    forall x | x in g
      ensures g[x] == Neighbours(rels + [r], x)
    {
      NeighboursSnoc(rels, r, x);
      GraphSetOf(rels, x);
      InsertSetOf(GraphOf(rels), r.sourceRef, r.targetRef, x);
      InsertSetOf(g1, r.targetRef, r.sourceRef, x);
      assert g[x] == SetOf(g, x);
    }
  }

  /**
   * Lines 305-321: for each relationship, add the target to the source's set and
   * the source to the target's set, creating a set the first time an id is seen.
   */
  method MatchRelationships(relationships: seq<Relationship>) returns (matches: map<Id, set<Id>>)
    ensures matches == GraphOf(relationships)
  {
    matches := map[];
    for i := 0 to |relationships|
      invariant matches == GraphOf(relationships[..i])
    {
      var source := relationships[i].sourceRef;
      var target := relationships[i].targetRef;
      ghost var before := matches;

      if source in matches {
        matches := matches[source := matches[source] + {target}];
      } else {
        matches := matches[source := {target}];
      }
      assert matches == Insert(before, source, target);
      ghost var middle := matches;

      if target in matches {
        matches := matches[target := matches[target] + {source}];
      } else {
        matches := matches[target := {source}];
      }
      assert matches == Insert(middle, target, source);

      assert relationships[..i + 1] == relationships[..i] + [relationships[i]];
      GraphOfSnoc(relationships[..i], relationships[i]);
    }
    assert relationships[..|relationships|] == relationships;
  }

  /** `y` is in `x`'s set exactly when some relationship joins the two. */
  lemma GraphLinks(rels: seq<Relationship>, x: Id, y: Id)
    ensures (x in GraphOf(rels) && y in GraphOf(rels)[x]) <==> Linked(rels, x, y)
  {
    if Linked(rels, x, y) {
      var r :| r in rels && ((r.sourceRef == x && r.targetRef == y) || (r.sourceRef == y && r.targetRef == x));
      assert x in Endpoints(rels);
    }
  }

  /** The graph is symmetric. */
  lemma GraphSymmetric(rels: seq<Relationship>, x: Id, y: Id)
    requires x in GraphOf(rels) && y in GraphOf(rels)[x]
    ensures y in GraphOf(rels) && x in GraphOf(rels)[y]
  {
    GraphLinks(rels, x, y);
    GraphLinks(rels, y, x);
  }

  /** The keys are exactly the endpoints, and no key maps to an empty set. */
  lemma GraphKeysNonEmpty(rels: seq<Relationship>, x: Id)
    ensures x in GraphOf(rels) <==> exists r :: r in rels && (r.sourceRef == x || r.targetRef == x)
    ensures x in GraphOf(rels) ==> GraphOf(rels)[x] != {}
  {
    if x in GraphOf(rels) {
      var r :| r in rels && (r.sourceRef == x || r.targetRef == x);
      if r.sourceRef == x {
        assert r.targetRef in Neighbours(rels, x);
      } else {
        assert r.sourceRef in Neighbours(rels, x);
      }
    }
  }

  /** The `None` key is present exactly when some relationship lacks an endpoint. */
  lemma NoneKeyIffMissingEndpoint(rels: seq<Relationship>)
    ensures None in GraphOf(rels) <==> exists r :: r in rels && (r.sourceRef.None? || r.targetRef.None?)
  {
    GraphKeysNonEmpty(rels, None);
  }

  /** `xs` enumerates `s`: each member once, nothing else. */
  ghost predicate Enumerates(xs: seq<Id>, s: set<Id>) {
    NoDup(xs) && forall x :: x in xs <==> x in s
  }

  /** `order` lists every set of `g` in some iteration order. */
  ghost predicate Lists(order: map<Id, seq<Id>>, g: map<Id, set<Id>>) {
    order.Keys == g.Keys && forall k | k in g :: Enumerates(order[k], g[k])
  }

  /** Python iterates a set in an order of its own choosing; any order will do here. */
  method IterationOrder(s: set<Id>) returns (xs: seq<Id>)
    ensures Enumerates(xs, s)
  {
    xs := [];
    var rest := s;
    while rest != {}
      invariant rest <= s
      invariant NoDup(xs)
      invariant forall x :: x in xs <==> x in s && x !in rest
      decreases rest
    {
      var x :| x in rest;
      xs := xs + [x];
      rest := rest - {x};
    }
  }

  /** The iteration order of every set in the graph; one fixed order per set, as in Python. */
  method ListGraph(g: map<Id, set<Id>>) returns (order: map<Id, seq<Id>>)
    ensures Lists(order, g)
  {
    order := map[];
    var keys := g.Keys;
    while keys != {}
      invariant keys <= g.Keys
      invariant order.Keys == g.Keys - keys
      invariant forall k | k in order :: Enumerates(order[k], g[k])
      decreases keys
    {
      var k :| k in keys;
      var xs := IterationOrder(g[k]);
      order := order[k := xs];
      keys := keys - {k};
    }
  }
}
