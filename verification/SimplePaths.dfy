/**
 Depth-first enumeration of the simple paths of a labelled graph: `Walk` lists
 what a walk with a stack of open nodes records, and the lemmas show that
 these are exactly the paths without a repeated node.
 */
module SimplePaths {

  datatype TypeId = TypeId(name: string)

  datatype Edge = Edge(step: string, target: TypeId)

  /** A finite graph: its nodes and the labelled edges out of each, in order. */
  datatype Graph = Graph(types: set<TypeId>, edges: TypeId -> seq<Edge>) {
    ghost predicate Valid() {
      forall tid, k :: tid in types && 0 <= k < |edges(tid)| ==> edges(tid)[k].target in types
    }
  }

  // Paths in the graph, given by the numbers of the edges they take

  ghost predicate IsTrail(g: Graph, from: TypeId, t: seq<nat>)
    decreases t
  {
    t == [] || (t[0] < |g.edges(from)| && IsTrail(g, g.edges(from)[t[0]].target, t[1..]))
  }

  ghost function Visited(g: Graph, from: TypeId, t: seq<nat>): (s: seq<TypeId>)
    requires IsTrail(g, from, t)
    ensures |s| == |t| + 1 && s[0] == from
    decreases t
  {
    if t == [] then [from] else [from] + Visited(g, g.edges(from)[t[0]].target, t[1..])
  }

  ghost function Labels(g: Graph, from: TypeId, t: seq<nat>): seq<string>
    requires IsTrail(g, from, t)
    decreases t
  {
    if t == [] then [] else [g.edges(from)[t[0]].step] + Labels(g, g.edges(from)[t[0]].target, t[1..])
  }

  /** No type repeats along the trail and none is among those to avoid. */
  ghost predicate IsSimple(g: Graph, from: TypeId, t: seq<nat>, avoid: seq<TypeId>) {
    && IsTrail(g, from, t)
    && (forall i, j :: 0 <= i < j <= |t| ==> Visited(g, from, t)[i] != Visited(g, from, t)[j])
    && (forall i :: 0 <= i <= |t| ==> Visited(g, from, t)[i] !in avoid)
  }

  /** One record of the walk: the type, the edges taken to it and their labels. */
  datatype Visit = Visit(tid: TypeId, trail: seq<nat>, path: seq<string>)

  /** What the walk records from `tid` on, having come by `trail` with the types of `stack` open. */
  ghost function Walk(g: Graph, tid: TypeId, stack: seq<TypeId>, trail: seq<nat>, path: seq<string>): seq<Visit>
    requires g.Valid() && tid in g.types
    decreases Unopened(g, stack), 0
  {
    if tid in stack then []
    else
      Opening(g, stack, tid);
      [Visit(tid, trail, path)] + WalkEdges(g, tid, |g.edges(tid)|, stack + [tid], trail, path)
  }

  /** The same along the first k edges of an open type. */
  ghost function WalkEdges(g: Graph, tid: TypeId, k: nat, stack: seq<TypeId>, trail: seq<nat>,
          path: seq<string>): seq<Visit>
    requires g.Valid() && tid in g.types && k <= |g.edges(tid)|
    decreases Unopened(g, stack), k + 1
  {
    if k == 0 then []
    else
      var e := g.edges(tid)[k - 1];
      WalkEdges(g, tid, k - 1, stack, trail, path) + Walk(g, e.target, stack, trail + [k - 1], path + [e.step])
  }

  ghost function Unopened(g: Graph, stack: seq<TypeId>): nat {
    |set t | t in g.types && t !in stack|
  }

  lemma Opening(g: Graph, stack: seq<TypeId>, tid: TypeId)
    requires tid in g.types && tid !in stack
    ensures Unopened(g, stack + [tid]) < Unopened(g, stack)
  {
    var before := set t | t in g.types && t !in stack;
    var after := set t | t in g.types && t !in stack + [tid];
    assert after == before - {tid};
  }

  /** A record of a walk is a simple trail, with the type at its end and the labels along it. */
  ghost predicate Records(g: Graph, v: Visit, tid: TypeId, stack: seq<TypeId>, trail: seq<nat>, path: seq<string>) {
    && |trail| <= |v.trail| && v.trail[..|trail|] == trail
    && var t := v.trail[|trail|..];
       && IsSimple(g, tid, t, stack)
       && v.tid == Visited(g, tid, t)[|t|]
       && v.path == path + Labels(g, tid, t)
  }

  lemma ExtendSimple(g: Graph, tid: TypeId, k: nat, t: seq<nat>, stack: seq<TypeId>)
    requires k < |g.edges(tid)|
    ensures tid !in stack && IsSimple(g, g.edges(tid)[k].target, t, stack + [tid]) <==> IsSimple(g, tid, [k] + t, stack)
  {
    var next := g.edges(tid)[k].target;
    assert ([k] + t)[1..] == t;
    if IsTrail(g, next, t) {
      var rest := Visited(g, next, t);
      var all := Visited(g, tid, [k] + t);
      assert all == [tid] + rest;
      assert forall i :: 0 <= i <= |t| ==> all[i + 1] == rest[i];
      if IsSimple(g, tid, [k] + t, stack) {
        assert all[0] !in stack;
        forall i | 0 <= i <= |t|
          ensures rest[i] !in stack + [tid]
        {
          assert all[0] != all[i + 1] && all[i + 1] !in stack;
        }
        forall i, j | 0 <= i < j <= |t|
          ensures rest[i] != rest[j]
        {
          assert all[i + 1] != all[j + 1];
        }
      }
      if tid !in stack && IsSimple(g, next, t, stack + [tid]) {
        forall i | 0 <= i <= |t| + 1
          ensures all[i] !in stack
        {
          if i > 0 { assert rest[i - 1] !in stack + [tid]; }
        }
        forall i, j | 0 <= i < j <= |t| + 1
          ensures all[i] != all[j]
        {
          if i == 0 { assert rest[j - 1] !in stack + [tid]; } else { assert rest[i - 1] != rest[j - 1]; }
        }
      }
    }
  }

  lemma {:induction false} WalkSound(g: Graph, tid: TypeId, stack: seq<TypeId>, trail: seq<nat>, path: seq<string>,
          v: Visit)
    requires g.Valid() && tid in g.types && v in Walk(g, tid, stack, trail, path)
    ensures Records(g, v, tid, stack, trail, path)
    decreases Unopened(g, stack), 0
  {
    Opening(g, stack, tid);
    var n := |g.edges(tid)|;
    if v == Visit(tid, trail, path) {
      assert v.trail[|trail|..] == [];
    } else {
      var k := WalkEdgesSound(g, tid, n, stack + [tid], trail, path, v);
      LiftRecord(g, tid, k, stack, trail, path, v);
    }
  }

  lemma {:induction false} WalkEdgesSound(g: Graph, tid: TypeId, n: nat, stack: seq<TypeId>, trail: seq<nat>,
          path: seq<string>, v: Visit)
      returns (k: nat)
    requires g.Valid() && tid in g.types && n <= |g.edges(tid)| && v in WalkEdges(g, tid, n, stack, trail, path)
    ensures k < n && Records(g, v, g.edges(tid)[k].target, stack, trail + [k], path + [g.edges(tid)[k].step])
    decreases Unopened(g, stack), n + 1
  {
    k := n - 1;
    var e := g.edges(tid)[k];
    if v in Walk(g, e.target, stack, trail + [k], path + [e.step]) {
      WalkSound(g, e.target, stack, trail + [k], path + [e.step], v);
    } else {
      k := WalkEdgesSound(g, tid, n - 1, stack, trail, path, v);
    }
  }

  lemma LiftRecord(g: Graph, tid: TypeId, k: nat, stack: seq<TypeId>, trail: seq<nat>, path: seq<string>, v: Visit)
    requires k < |g.edges(tid)| && tid !in stack
    requires Records(g, v, g.edges(tid)[k].target, stack + [tid], trail + [k], path + [g.edges(tid)[k].step])
    ensures Records(g, v, tid, stack, trail, path)
  {
    var e := g.edges(tid)[k];
    var t := v.trail[|trail| + 1..];
    assert v.trail[..|trail| + 1] == trail + [k];
    assert v.trail[..|trail|] == trail by { assert v.trail[..|trail| + 1][..|trail|] == v.trail[..|trail|]; }
    assert v.trail[|trail|] == k by { assert v.trail[..|trail| + 1][|trail|] == k; }
    assert v.trail[|trail|..] == [k] + t;
    ExtendSimple(g, tid, k, t, stack);
    assert ([k] + t)[1..] == t;
    assert path + Labels(g, tid, [k] + t) == (path + [e.step]) + Labels(g, e.target, t);
  }

  /** The record of a simple trail. */
  ghost function VisitOf(g: Graph, tid: TypeId, t: seq<nat>, trail: seq<nat>, path: seq<string>): Visit
    requires IsTrail(g, tid, t)
  {
    Visit(Visited(g, tid, t)[|t|], trail + t, path + Labels(g, tid, t))
  }

  lemma {:induction false} WalkComplete(g: Graph, tid: TypeId, stack: seq<TypeId>, trail: seq<nat>,
          path: seq<string>, t: seq<nat>)
    requires g.Valid() && tid in g.types && IsSimple(g, tid, t, stack)
    ensures VisitOf(g, tid, t, trail, path) in Walk(g, tid, stack, trail, path)
    decreases t
  {
    assert Visited(g, tid, t)[0] !in stack;
    Opening(g, stack, tid);
    if t == [] {
      assert trail + t == trail && path + Labels(g, tid, t) == path;
    } else {
      var k, rest := t[0], t[1..];
      var e := g.edges(tid)[k];
      assert t == [k] + rest;
      ExtendSimple(g, tid, k, rest, stack);
      WalkComplete(g, e.target, stack + [tid], trail + [k], path + [e.step], rest);
      assert VisitOf(g, e.target, rest, trail + [k], path + [e.step]) == VisitOf(g, tid, t, trail, path) by {
        assert (trail + [k]) + rest == trail + t;
        assert (path + [e.step]) + Labels(g, e.target, rest) == path + Labels(g, tid, t);
      }
      InWalkEdges(g, tid, k, |g.edges(tid)|, stack + [tid], trail, path, VisitOf(g, tid, t, trail, path));
    }
  }

  lemma {:induction false} InWalkEdges(g: Graph, tid: TypeId, k: nat, n: nat, stack: seq<TypeId>, trail: seq<nat>,
          path: seq<string>, v: Visit)
    requires g.Valid() && tid in g.types && k < n <= |g.edges(tid)|
    requires v in Walk(g, g.edges(tid)[k].target, stack, trail + [k], path + [g.edges(tid)[k].step])
    ensures v in WalkEdges(g, tid, n, stack, trail, path)
    decreases n
  {
    if k < n - 1 {
      InWalkEdges(g, tid, k, n - 1, stack, trail, path, v);
    }
    InOneMore(g, tid, n, stack, trail, path, v);
  }

  lemma InOneMore(g: Graph, tid: TypeId, n: nat, stack: seq<TypeId>, trail: seq<nat>, path: seq<string>, v: Visit)
    requires g.Valid() && tid in g.types && 0 < n <= |g.edges(tid)|
    requires var e := g.edges(tid)[n - 1];
             v in WalkEdges(g, tid, n - 1, stack, trail, path)
                 || v in Walk(g, e.target, stack, trail + [n - 1], path + [e.step])
    ensures v in WalkEdges(g, tid, n, stack, trail, path)
  {
    var e := g.edges(tid)[n - 1];
    var last := Walk(g, e.target, stack, trail + [n - 1], path + [e.step]);
    assert v in WalkEdges(g, tid, n - 1, stack, trail, path) + last;
  }

  ghost predicate DistinctTrails(s: seq<Visit>) {
    forall i, j :: 0 <= i < j < |s| ==> s[i].trail != s[j].trail
  }

  lemma DistinctAppend(a: seq<Visit>, b: seq<Visit>)
    requires DistinctTrails(a) && DistinctTrails(b)
    requires forall v, w :: v in a && w in b ==> v.trail != w.trail
    ensures DistinctTrails(a + b)
  {
    var s := a + b;
    forall i, j | 0 <= i < j < |s|
      ensures s[i].trail != s[j].trail
    {
      if i < |a| <= j {
        assert s[i] in a && s[j] in b;
      }
    }
  }

  lemma {:induction false} WalkDistinct(g: Graph, tid: TypeId, stack: seq<TypeId>, trail: seq<nat>, path: seq<string>)
    requires g.Valid() && tid in g.types
    ensures DistinctTrails(Walk(g, tid, stack, trail, path))
    decreases Unopened(g, stack), 0
  {
    if tid !in stack {
      Opening(g, stack, tid);
      var n := |g.edges(tid)|;
      var below := WalkEdges(g, tid, n, stack + [tid], trail, path);
      WalkEdgesDistinct(g, tid, n, stack + [tid], trail, path);
      forall v, w | v in [Visit(tid, trail, path)] && w in below
        ensures v.trail != w.trail
      {
        var k := WalkEdgesSound(g, tid, n, stack + [tid], trail, path, w);
      }
      DistinctAppend([Visit(tid, trail, path)], below);
    }
  }

  lemma {:induction false} WalkEdgesDistinct(g: Graph, tid: TypeId, n: nat, stack: seq<TypeId>, trail: seq<nat>,
          path: seq<string>)
    requires g.Valid() && tid in g.types && n <= |g.edges(tid)|
    ensures DistinctTrails(WalkEdges(g, tid, n, stack, trail, path))
    decreases Unopened(g, stack), n + 1
  {
    if n > 0 {
      var e := g.edges(tid)[n - 1];
      var before := WalkEdges(g, tid, n - 1, stack, trail, path);
      var last := Walk(g, e.target, stack, trail + [n - 1], path + [e.step]);
      WalkEdgesDistinct(g, tid, n - 1, stack, trail, path);
      WalkDistinct(g, e.target, stack, trail + [n - 1], path + [e.step]);
      forall v, w | v in before && w in last
        ensures v.trail != w.trail
      {
        var k := WalkEdgesExtend(g, tid, n - 1, stack, trail, path, v);
        WalkExtends(g, e.target, stack, trail + [n - 1], path + [e.step], w);
        DifferentSteps(v.trail, w.trail, trail, k, n - 1);
      }
      DistinctAppend(before, last);
    }
  }

  ghost predicate Extends(t: seq<nat>, prefix: seq<nat>) {
    |prefix| <= |t| && t[..|prefix|] == prefix
  }

  lemma WalkExtends(g: Graph, tid: TypeId, stack: seq<TypeId>, trail: seq<nat>, path: seq<string>, v: Visit)
    requires g.Valid() && tid in g.types && v in Walk(g, tid, stack, trail, path)
    ensures Extends(v.trail, trail)
  {
    WalkSound(g, tid, stack, trail, path, v);
  }

  lemma WalkEdgesExtend(g: Graph, tid: TypeId, n: nat, stack: seq<TypeId>, trail: seq<nat>, path: seq<string>, v: Visit)
      returns (k: nat)
    requires g.Valid() && tid in g.types && n <= |g.edges(tid)| && v in WalkEdges(g, tid, n, stack, trail, path)
    ensures k < n && Extends(v.trail, trail + [k])
  {
    k := WalkEdgesSound(g, tid, n, stack, trail, path, v);
  }

  /** Trails that part at some step are different. */
  lemma DifferentSteps(t: seq<nat>, u: seq<nat>, trail: seq<nat>, j: nat, k: nat)
    requires Extends(t, trail + [j]) && Extends(u, trail + [k]) && j != k
    ensures t != u
  {
    assert t[..|trail| + 1][|trail|] == j && u[..|trail| + 1][|trail|] == k;
  }

  /** The record of a simple trail from the root. */
  ghost predicate IsRecordOf(g: Graph, root: TypeId, v: Visit) {
    IsSimple(g, root, v.trail, []) && v == VisitOf(g, root, v.trail, [], [])
  }

  /**
   The walk from a root records exactly the simple paths that start there:
   every record is one, every one is recorded, and no sequence of edges is
   recorded twice.
   */
  lemma WalkRecordsSimplePaths(g: Graph, root: TypeId)
    requires g.Valid() && root in g.types
    ensures forall v :: v in Walk(g, root, [], [], []) <==> IsRecordOf(g, root, v)
    ensures DistinctTrails(Walk(g, root, [], [], []))
  {
    forall v
      ensures v in Walk(g, root, [], [], []) <==> IsRecordOf(g, root, v)
    {
      assert v.trail[0..] == v.trail && [] + v.trail == v.trail;
      if v in Walk(g, root, [], [], []) {
        WalkSound(g, root, [], [], [], v);
        assert [] + Labels(g, root, v.trail) == Labels(g, root, v.trail);
      }
      if IsSimple(g, root, v.trail, []) {
        WalkComplete(g, root, [], [], [], v.trail);
      }
    }
    WalkDistinct(g, root, [], [], []);
  }
}
