/**
 The introspection walk behind the documented configuration paths: from a root
 type it follows pointer attributes, object containers, derived types and
 aggregations, depth first, and records a path for every type it reaches
 without meeting a type twice on the way.
 */
module TypeGraph {
  import opened SimplePaths

  /** What an attribute checker tells about the attribute's value. */
  datatype Checker = PointerTo(pointee: TypeId) | ContainerOf(item: TypeId) | Plain

  datatype Attribute = Attribute(name: string, checker: Checker)

  /** The type database: attributes of each type, the registered types in order, and who derives from whom. */
  datatype Registry = Registry(attributes: map<TypeId, seq<Attribute>>, registered: seq<TypeId>,
          derived: set<(TypeId, TypeId)>)

  type Aggregates = seq<(TypeId, TypeId)>

  const OBJECT: TypeId := TypeId("ns3::Object")

  /** The edges that the items of a list contribute, in order. */
  function FlatMap<T>(s: seq<T>, f: T -> seq<Edge>): seq<Edge> {
    if s == [] then [] else FlatMap(s[..|s| - 1], f) + f(s[|s| - 1])
  }

  lemma {:induction false} FlatMapPrefix<T>(s: seq<T>, f: T -> seq<Edge>, i: nat)
    requires i < |s|
    ensures FlatMap(s[..i + 1], f) == FlatMap(s[..i], f) + f(s[i])
    ensures FlatMap(s[..i + 1], f) <= FlatMap(s, f)
  {
    assert s[..i + 1][..i] == s[..i];
    if i + 1 == |s| {
      assert s[..i + 1] == s;
    } else {
      var init := s[..|s| - 1];
      FlatMapPrefix(init, f, i);
      assert init[..i + 1] == s[..i + 1] && init[..i] == s[..i];
    }
  }

  function AttributeEdge(a: Attribute): seq<Edge> {
    match a.checker
    case PointerTo(pointee) => if pointee == OBJECT then [] else [Edge(a.name, pointee)]
    case ContainerOf(item) => [Edge(a.name + "/[i]", item)]
    case Plain => []
  }

  function ChildEdge(r: Registry, tid: TypeId): TypeId -> seq<Edge> {
    (child: TypeId) => if (child, tid) in r.derived then [Edge("$" + child.name, child)] else []
  }

  function AggregateEdge(tid: TypeId): ((TypeId, TypeId)) -> seq<Edge> {
    (item: (TypeId, TypeId)) =>
      if item.1 == tid then [Edge("$" + item.0.name, item.0)]
      else if item.0 == tid then [Edge("$" + item.1.name, item.1)]
      else []
  }

  function AttributesOf(r: Registry, tid: TypeId): seq<Attribute> {
    if tid in r.attributes then r.attributes[tid] else []
  }

  /** The labelled edges out of a type, in the order in which the walk takes them. */
  datatype Database = Database(r: Registry, aggregates: Aggregates) {
    function AttributePart(tid: TypeId): seq<Edge> {
      FlatMap(AttributesOf(r, tid), AttributeEdge)
    }

    function ChildPart(tid: TypeId): seq<Edge> {
      FlatMap(r.registered, ChildEdge(r, tid))
    }

    function Edges(tid: TypeId): seq<Edge> {
      AttributePart(tid) + ChildPart(tid) + FlatMap(aggregates, AggregateEdge(tid))
    }

    /** The nodes are the registered types; in a valid graph every type that is mentioned anywhere is one of them. */
    ghost function TheGraph(): Graph {
      Graph(set t | t in r.registered, (tid: TypeId) => Edges(tid))
    }
  }

  // What the edges stand for

  /** The item of a list that contributes edge number p. */
  ghost function ItemOf<T>(s: seq<T>, f: T -> seq<Edge>, p: nat): (i: nat)
    requires p < |FlatMap(s, f)|
    ensures i < |s|
  {
    if p < |FlatMap(s[..|s| - 1], f)| then ItemOf(s[..|s| - 1], f, p) else |s| - 1
  }

  /** Every edge comes from its item, in the order of the items. */
  lemma {:induction false} EdgesFollowItems<T>(s: seq<T>, f: T -> seq<Edge>, p: nat, q: nat)
    requires p <= q < |FlatMap(s, f)|
    ensures FlatMap(s, f)[p] in f(s[ItemOf(s, f, p)]) && ItemOf(s, f, p) <= ItemOf(s, f, q)
  {
    var init := s[..|s| - 1];
    if q < |FlatMap(init, f)| {
      EdgesFollowItems(init, f, p, q);
    } else if p < |FlatMap(init, f)| {
      EdgesFollowItems(init, f, p, p);
    }
  }

  /** And no item's edge is missing. */
  lemma {:induction false} ItemsHaveEdges<T>(s: seq<T>, f: T -> seq<Edge>, e: Edge)
    ensures e in FlatMap(s, f) <==> exists i :: 0 <= i < |s| && e in f(s[i])
  {
    if s != [] {
      var init := s[..|s| - 1];
      ItemsHaveEdges(init, f, e);
      assert forall i :: 0 <= i < |init| ==> init[i] == s[i];
    }
  }

  /** A pointer to another type than Object, by the attribute's name, or the items of a container, with an index. */
  ghost predicate ByAttribute(r: Registry, tid: TypeId, e: Edge) {
    && tid in r.attributes
    && exists i :: 0 <= i < |r.attributes[tid]| &&
         var a := r.attributes[tid][i];
         || (a.checker == PointerTo(e.target) && e.target != TypeId("ns3::Object") && e.step == a.name)
         || (a.checker == ContainerOf(e.target) && e.step == a.name + "/[i]")
  }

  ghost predicate ByDerivation(r: Registry, tid: TypeId, e: Edge) {
    e.target in r.registered && (e.target, tid) in r.derived && e.step == "$" + e.target.name
  }

  /** An aggregation of two types leads from each to the other. */
  ghost predicate ByAggregation(aggregates: Aggregates, tid: TypeId, e: Edge) {
    ((tid, e.target) in aggregates || (e.target, tid) in aggregates) && e.step == "$" + e.target.name
  }

  /** The edges out of a type are its attributes', those to the types derived from it, and its aggregations'. */
  lemma EdgesAre(d: Database, tid: TypeId, e: Edge)
    ensures e in d.AttributePart(tid) <==> ByAttribute(d.r, tid, e)
    ensures e in d.ChildPart(tid) <==> ByDerivation(d.r, tid, e)
    ensures e in FlatMap(d.aggregates, AggregateEdge(tid)) <==> ByAggregation(d.aggregates, tid, e)
    ensures e in d.TheGraph().edges(tid)
       <==> ByAttribute(d.r, tid, e) || ByDerivation(d.r, tid, e) || ByAggregation(d.aggregates, tid, e)
  {
    ItemsHaveEdges(AttributesOf(d.r, tid), AttributeEdge, e);
    ItemsHaveEdges(d.r.registered, ChildEdge(d.r, tid), e);
    ItemsHaveEdges(d.aggregates, AggregateEdge(tid), e);
  }

  // The walk as the program does it

  /** A type with its configuration path. */
  datatype Entry = Entry(tid: TypeId, path: string)

  function PathString(path: seq<string>): string {
    if path == [] then "" else PathString(path[..|path| - 1]) + "/" + path[|path| - 1]
  }

  /** Each label of a path comes after a slash, and nothing else does. */
  lemma {:induction false} PathOfParts(a: seq<string>, b: seq<string>, x: string)
    ensures PathString(a + b) == PathString(a) + PathString(b) && PathString([x]) == "/" + x && PathString([]) == ""
    decreases |b|
  {
    if b == [] {
      assert a + b == a;
    } else {
      var init := b[..|b| - 1];
      PathOfParts(a, init, x);
      assert (a + b)[..|a + b| - 1] == a + init;
    }
  }

  ghost predicate IsLastSlash(s: string, k: nat) {
    k < |s| && s[k] == '/' && forall i :: k < i < |s| ==> s[i] != '/'
  }

  lemma SplitAtLastSlash(x: string, a: string, y: string, b: string)
    requires x + "/" + a == y + "/" + b && '/' !in a && '/' !in b
    ensures x == y && a == b
  {
    var s := x + "/" + a;
    assert IsLastSlash(s, |x|) && IsLastSlash(y + "/" + b, |y|);
    assert s[..|x|] == x && s[|x| + 1..] == a;
    assert s[..|y|] == y && s[|y| + 1..] == b;
  }

  ghost predicate Plain(name: string) {
    '/' !in name && name != "[i]"
  }

  ghost predicate Indexed(name: string) {
    |name| >= 4 && name == name[..|name| - 4] + ("/" + "[i]") && Plain(name[..|name| - 4])
  }

  /** The labels of edges between types and attributes whose names hold no slash. */
  ghost predicate IsPath(p: seq<string>) {
    forall i :: 0 <= i < |p| ==> Plain(p[i]) || Indexed(p[i])
  }

  lemma LastLabel(p: seq<string>)
    requires p != []
    ensures var x, name := PathString(p[..|p| - 1]), p[|p| - 1];
            PathString(p) == if Indexed(name) then (x + "/" + name[..|name| - 4]) + "/" + "[i]" else x + "/" + name
  {
    var x, name := PathString(p[..|p| - 1]), p[|p| - 1];
    if Indexed(name) {
      Regroup(x, name[..|name| - 4], "/", "[i]");
    }
  }

  lemma Regroup(x: string, base: string, slash: string, index: string)
    ensures x + slash + (base + (slash + index)) == (x + slash + base) + slash + index
  {
  }

  /** Paths of different labels have different strings. */
  lemma {:induction false} PathStringInjective(p: seq<string>, q: seq<string>)
    requires PathString(p) == PathString(q) && IsPath(p) && IsPath(q)
    ensures p == q
    decreases |p|, 1
  {
    if p != [] && q != [] {
      var m, n := |p| - 1, |q| - 1;
      LastLabel(p);
      LastLabel(q);
      var x, y := PathString(p[..m]), PathString(q[..n]);
      if Indexed(p[m]) && Indexed(q[n]) {
        var a, b := p[m][..|p[m]| - 4], q[n][..|q[n]| - 4];
        SplitAtLastSlash(x + "/" + a, "[i]", y + "/" + b, "[i]");
        SplitAtLastSlash(x, a, y, b);
        SameLast(p, q);
      } else if Plain(p[m]) && Plain(q[n]) {
        SplitAtLastSlash(x, p[m], y, q[n]);
        SameLast(p, q);
      } else if Indexed(p[m]) {
        SplitAtLastSlash(x + "/" + p[m][..|p[m]| - 4], "[i]", y, q[n]);
        assert false;
      } else {
        SplitAtLastSlash(x, p[m], y + "/" + q[n][..|q[n]| - 4], "[i]");
        assert false;
      }
    }
  }

  lemma {:induction false} SameLast(p: seq<string>, q: seq<string>)
    requires p != [] && q != [] && PathString(p[..|p| - 1]) == PathString(q[..|q| - 1]) && p[|p| - 1] == q[|q| - 1]
    requires IsPath(p) && IsPath(q)
    ensures p == q
    decreases |p|, 0
  {
    PathStringInjective(p[..|p| - 1], q[..|q| - 1]);
    assert p == p[..|p| - 1] + [p[|p| - 1]] && q == q[..|q| - 1] + [q[|q| - 1]];
  }

  ghost function Rendered(s: seq<Visit>): seq<Entry> {
    seq(|s|, i requires 0 <= i < |s| => Entry(s[i].tid, PathString(s[i].path)))
  }

  lemma RenderedAppend(a: seq<Visit>, b: seq<Visit>)
    ensures Rendered(a + b) == Rendered(a) + Rendered(b)
  {
  }

  /** The output once the first k edges of the open type `tid` are followed; `start` is the output before them. */
  ghost predicate Followed(output: seq<Entry>, start: seq<Entry>, g: Graph, tid: TypeId, k: nat, stack: seq<TypeId>,
                           trail: seq<nat>, path: seq<string>)
    requires g.Valid() && tid in g.types
  {
    && k <= |g.edges(tid)|
    && output == start + Rendered(WalkEdges(g, tid, k, stack + [tid], trail, path))
  }

  lemma FollowedOneMore(output: seq<Entry>, start: seq<Entry>, g: Graph, tid: TypeId, k: nat, stack: seq<TypeId>,
                        trail: seq<nat>, path: seq<string>)
    requires g.Valid() && tid in g.types && k < |g.edges(tid)| && Followed(output, start, g, tid, k, stack, trail, path)
    ensures var e := g.edges(tid)[k];
            Followed(output + Rendered(Walk(g, e.target, stack + [tid], trail + [k], path + [e.step])), start, g,
                tid, k + 1, stack, trail, path)
  {
    var e := g.edges(tid)[k];
    RenderedAppend(WalkEdges(g, tid, k, stack + [tid], trail, path),
        Walk(g, e.target, stack + [tid], trail + [k], path + [e.step]));
  }

  lemma FollowedAll(output: seq<Entry>, start: seq<Entry>, g: Graph, tid: TypeId, stack: seq<TypeId>,
          trail: seq<nat>, path: seq<string>)
    requires g.Valid() && tid in g.types && tid !in stack
    requires Followed(output, start + [Entry(tid, PathString(path))], g, tid, |g.edges(tid)|, stack, trail, path)
    ensures output == start + Rendered(Walk(g, tid, stack, trail, path))
  {
    var below := WalkEdges(g, tid, |g.edges(tid)|, stack + [tid], trail, path);
    var first := Visit(tid, trail, path);
    RenderedAppend([first], below);
    assert Walk(g, tid, stack, trail, path) == [first] + below by { Opening(g, stack, tid); }
    assert Rendered([first]) == [Entry(tid, PathString(path))];
  }

  /** Where the edge of item i of a list stands among all edges of a type. */
  lemma EdgeOfItem<T>(edges: seq<Edge>, before: seq<Edge>, s: seq<T>, f: T -> seq<Edge>, i: nat)
    requires before + FlatMap(s, f) <= edges && i < |s| && |f(s[i])| <= 1
    ensures var k := |before| + |FlatMap(s[..i], f)|;
            && |before| + |FlatMap(s[..i + 1], f)| == k + |f(s[i])| <= |edges|
            && (f(s[i]) != [] ==> edges[k] == f(s[i])[0])
  {
    FlatMapPrefix(s, f, i);
    assert before + FlatMap(s[..i + 1], f) <= edges;
    assert (before + FlatMap(s[..i], f)) + f(s[i]) == before + FlatMap(s[..i + 1], f);
  }

  /** The number of edges from the first i attributes. */
  ghost function AttributeCount(d: Database, tid: TypeId, i: nat): nat
    requires i <= |AttributesOf(d.r, tid)|
  {
    |FlatMap(AttributesOf(d.r, tid)[..i], AttributeEdge)|
  }

  lemma AttributeEdgeAt(d: Database, tid: TypeId, i: nat)
    requires i < |AttributesOf(d.r, tid)|
    ensures var k, edge := AttributeCount(d, tid, i), AttributeEdge(AttributesOf(d.r, tid)[i]);
            && AttributeCount(d, tid, i + 1) == k + |edge| <= |d.TheGraph().edges(tid)|
            && (edge != [] ==> d.TheGraph().edges(tid)[k] == edge[0])
  {
    EdgeOfItem(d.Edges(tid), [], AttributesOf(d.r, tid), AttributeEdge, i);
  }

  /** The number of edges from attributes and from the first j registered types. */
  ghost function ChildCount(d: Database, tid: TypeId, j: nat): nat
    requires j <= |d.r.registered|
  {
    |d.AttributePart(tid)| + |FlatMap(d.r.registered[..j], ChildEdge(d.r, tid))|
  }

  lemma ChildEdgeAt(d: Database, tid: TypeId, j: nat)
    requires j < |d.r.registered|
    ensures var k, child := ChildCount(d, tid, j), d.r.registered[j];
            if (child, tid) in d.r.derived
            then ChildCount(d, tid, j + 1) == k + 1 <= |d.TheGraph().edges(tid)|
                && d.TheGraph().edges(tid)[k] == Edge("$" + child.name, child)
            else ChildCount(d, tid, j + 1) == k
  {
    EdgeOfItem(d.Edges(tid), d.AttributePart(tid), d.r.registered, ChildEdge(d.r, tid), j);
  }

  /** The number of edges from attributes, derived types and the first j aggregations. */
  ghost function AggregateCount(d: Database, tid: TypeId, j: nat): nat
    requires j <= |d.aggregates|
  {
    |d.AttributePart(tid) + d.ChildPart(tid)| + |FlatMap(d.aggregates[..j], AggregateEdge(tid))|
  }

  lemma AggregateEdgeAt(d: Database, tid: TypeId, j: nat)
    requires j < |d.aggregates|
    ensures var k, item := AggregateCount(d, tid, j), d.aggregates[j];
            if item.0 == tid || item.1 == tid
            then
              var other := if item.1 == tid then item.0 else item.1;
              AggregateCount(d, tid, j + 1) == k + 1 <= |d.TheGraph().edges(tid)|
                  && d.TheGraph().edges(tid)[k] == Edge("$" + other.name, other)
            else AggregateCount(d, tid, j + 1) == k
  {
    var item, f := d.aggregates[j], AggregateEdge(tid);
    var edges := f(item);
    assert |edges| <= 1 && (edges != [] <==> item.0 == tid || item.1 == tid);
    EdgeOfItem(d.Edges(tid), d.AttributePart(tid) + d.ChildPart(tid), d.aggregates, f, j);
  }

  lemma Counts(d: Database, tid: TypeId)
    ensures ChildCount(d, tid, 0) == |d.AttributePart(tid)|
    ensures ChildCount(d, tid, |d.r.registered|) == AggregateCount(d, tid, 0)
    ensures AggregateCount(d, tid, |d.aggregates|) == |d.TheGraph().edges(tid)|
  {
    assert d.r.registered[..|d.r.registered|] == d.r.registered && d.aggregates[..|d.aggregates|] == d.aggregates;
  }

  class StaticInformation {
    const registry: Registry
    var output: seq<Entry>
    var currentPath: seq<string>
    var alreadyProcessed: seq<TypeId>
    var aggregates: Aggregates

    ghost function TheDatabase(): Database
      reads this`aggregates
    {
      Database(registry, aggregates)
    }

    constructor (registry: Registry)
      ensures this.registry == registry
      ensures output == [] && currentPath == [] && alreadyProcessed == [] && aggregates == []
    {
      this.registry := registry;
      output, currentPath, alreadyProcessed, aggregates := [], [], [], [];
    }

    method GetCurrentPath() returns (path: string)
      ensures path == PathString(currentPath)
    {
      path := "";
      for i := 0 to |currentPath|
        invariant path == PathString(currentPath[..i])
      {
        assert currentPath[..i + 1][..i] == currentPath[..i];
        path := path + "/" + currentPath[i];
      }
      assert currentPath[..|currentPath|] == currentPath;
    }

    method HasAlreadyBeenProcessed(tid: TypeId) returns (processed: bool)
      ensures processed <==> tid in alreadyProcessed
    {
      for i := 0 to |alreadyProcessed|
        invariant tid !in alreadyProcessed[..i]
      {
        if alreadyProcessed[i] == tid {
          return true;
        }
      }
      return false;
    }

    method RecordOutput(tid: TypeId)
      modifies this`output
      ensures output == old(output) + [Entry(tid, PathString(currentPath))]
    {
      var path := GetCurrentPath();
      output := output + [Entry(tid, path)];
    }

    /** Follows edge number k of `tid`, which is open: push, walk, pop. */
    method Follow(tid: TypeId, e: Edge, ghost d: Database, ghost g: Graph, ghost k: nat, ghost trail: seq<nat>,
            ghost start: seq<Entry>)
      requires d == TheDatabase() && g == d.TheGraph() && g.Valid() && tid in g.types && tid !in alreadyProcessed
      requires k < |g.edges(tid)| && e == g.edges(tid)[k]
      requires Followed(output, start, g, tid, k, alreadyProcessed, trail, currentPath)
      modifies this`output, this`currentPath, this`alreadyProcessed
      ensures currentPath == old(currentPath) && alreadyProcessed == old(alreadyProcessed)
      ensures Followed(output, start, g, tid, k + 1, alreadyProcessed, trail, currentPath)
      decreases Unopened(g, alreadyProcessed), 1
    {
      Opening(g, alreadyProcessed, tid);
      FollowedOneMore(output, start, g, tid, k, alreadyProcessed, trail, currentPath);
      currentPath := currentPath + [e.step];
      alreadyProcessed := alreadyProcessed + [tid];
      DoGather(e.target, d, g, trail + [k]);
      alreadyProcessed := alreadyProcessed[..|alreadyProcessed| - 1];
      currentPath := currentPath[..|currentPath| - 1];
    }

    /** Appends the records of the walk from `tid` and leaves both stacks as they were. */
    method DoGather(tid: TypeId, ghost d: Database, ghost g: Graph, ghost trail: seq<nat>)
      requires d == TheDatabase() && g == d.TheGraph() && g.Valid() && tid in g.types
      modifies this`output, this`currentPath, this`alreadyProcessed
      ensures currentPath == old(currentPath) && alreadyProcessed == old(alreadyProcessed)
      ensures output == old(output) + Rendered(Walk(g, tid, alreadyProcessed, trail, currentPath))
      decreases Unopened(g, alreadyProcessed), 4
    {
      var processed := HasAlreadyBeenProcessed(tid);
      if processed {
        return;
      }
      RecordOutput(tid);
      ghost var start := output;
      assert Followed(output, start, g, tid, 0, alreadyProcessed, trail, currentPath);
      Counts(d, tid);
      FollowAttributes(tid, d, g, trail, start);
      FollowChildren(tid, d, g, trail, start);
      FollowAggregates(tid, d, g, trail, start);
      FollowedAll(output, old(output), g, tid, alreadyProcessed, trail, currentPath);
    }

    method FollowAttributes(tid: TypeId, ghost d: Database, ghost g: Graph, ghost trail: seq<nat>,
            ghost start: seq<Entry>)
      requires d == TheDatabase() && g == d.TheGraph() && g.Valid() && tid in g.types && tid !in alreadyProcessed
      requires Followed(output, start, g, tid, 0, alreadyProcessed, trail, currentPath)
      modifies this`output, this`currentPath, this`alreadyProcessed
      ensures currentPath == old(currentPath) && alreadyProcessed == old(alreadyProcessed)
      ensures Followed(output, start, g, tid, |d.AttributePart(tid)|, alreadyProcessed, trail, currentPath)
      decreases Unopened(g, alreadyProcessed), 3
    {
      var attributes := AttributesOf(registry, tid);
      for i := 0 to |attributes|
        invariant currentPath == old(currentPath) && alreadyProcessed == old(alreadyProcessed)
        invariant Followed(output, start, g, tid, AttributeCount(d, tid, i), alreadyProcessed, trail, currentPath)
      {
        FollowAttribute(tid, i, attributes[i], d, g, trail, start);
      }
      assert attributes[..|attributes|] == attributes;
    }

    method FollowAttribute(tid: TypeId, i: nat, info: Attribute, ghost d: Database, ghost g: Graph,
            ghost trail: seq<nat>,
                           ghost start: seq<Entry>)
      requires d == TheDatabase() && g == d.TheGraph() && g.Valid() && tid in g.types && tid !in alreadyProcessed
      requires i < |AttributesOf(registry, tid)| && info == AttributesOf(registry, tid)[i]
      requires Followed(output, start, g, tid, AttributeCount(d, tid, i), alreadyProcessed, trail, currentPath)
      modifies this`output, this`currentPath, this`alreadyProcessed
      ensures currentPath == old(currentPath) && alreadyProcessed == old(alreadyProcessed)
      ensures Followed(output, start, g, tid, AttributeCount(d, tid, i + 1), alreadyProcessed, trail, currentPath)
      decreases Unopened(g, alreadyProcessed), 2
    {
      AttributeEdgeAt(d, tid, i);
      ghost var k := AttributeCount(d, tid, i);
      match info.checker {
        case PointerTo(pointee) =>
          if pointee != OBJECT {
            Follow(tid, Edge(info.name, pointee), d, g, k, trail, start);
          }
        case ContainerOf(item) =>
          Follow(tid, Edge(info.name + "/[i]", item), d, g, k, trail, start);
        case Plain =>
      }
    }

    method FollowChildren(tid: TypeId, ghost d: Database, ghost g: Graph, ghost trail: seq<nat>,
            ghost start: seq<Entry>)
      requires d == TheDatabase() && g == d.TheGraph() && g.Valid() && tid in g.types && tid !in alreadyProcessed
      requires Followed(output, start, g, tid, ChildCount(d, tid, 0), alreadyProcessed, trail, currentPath)
      modifies this`output, this`currentPath, this`alreadyProcessed
      ensures currentPath == old(currentPath) && alreadyProcessed == old(alreadyProcessed)
      ensures Followed(output, start, g, tid, ChildCount(d, tid, |registry.registered|), alreadyProcessed, trail,
          currentPath)
      decreases Unopened(g, alreadyProcessed), 3
    {
      for j := 0 to |registry.registered|
        invariant currentPath == old(currentPath) && alreadyProcessed == old(alreadyProcessed)
        invariant Followed(output, start, g, tid, ChildCount(d, tid, j), alreadyProcessed, trail, currentPath)
      {
        FollowChild(tid, j, d, g, trail, start);
      }
    }

    method FollowChild(tid: TypeId, j: nat, ghost d: Database, ghost g: Graph, ghost trail: seq<nat>,
            ghost start: seq<Entry>)
      requires d == TheDatabase() && g == d.TheGraph() && g.Valid() && tid in g.types && tid !in alreadyProcessed
      requires j < |registry.registered|
      requires Followed(output, start, g, tid, ChildCount(d, tid, j), alreadyProcessed, trail, currentPath)
      modifies this`output, this`currentPath, this`alreadyProcessed
      ensures currentPath == old(currentPath) && alreadyProcessed == old(alreadyProcessed)
      ensures Followed(output, start, g, tid, ChildCount(d, tid, j + 1), alreadyProcessed, trail, currentPath)
      decreases Unopened(g, alreadyProcessed), 2
    {
      ChildEdgeAt(d, tid, j);
      var child := registry.registered[j];
      if (child, tid) in registry.derived {
        Follow(tid, Edge("$" + child.name, child), d, g, ChildCount(d, tid, j), trail, start);
      }
    }

    method FollowAggregates(tid: TypeId, ghost d: Database, ghost g: Graph, ghost trail: seq<nat>,
            ghost start: seq<Entry>)
      requires d == TheDatabase() && g == d.TheGraph() && g.Valid() && tid in g.types && tid !in alreadyProcessed
      requires Followed(output, start, g, tid, AggregateCount(d, tid, 0), alreadyProcessed, trail, currentPath)
      modifies this`output, this`currentPath, this`alreadyProcessed
      ensures currentPath == old(currentPath) && alreadyProcessed == old(alreadyProcessed)
      ensures Followed(output, start, g, tid, AggregateCount(d, tid, |aggregates|), alreadyProcessed, trail,
          currentPath)
      decreases Unopened(g, alreadyProcessed), 3
    {
      for j := 0 to |aggregates|
        invariant currentPath == old(currentPath) && alreadyProcessed == old(alreadyProcessed)
        invariant Followed(output, start, g, tid, AggregateCount(d, tid, j), alreadyProcessed, trail, currentPath)
      {
        FollowAggregate(tid, j, d, g, trail, start);
      }
    }

    method FollowAggregate(tid: TypeId, j: nat, ghost d: Database, ghost g: Graph, ghost trail: seq<nat>,
            ghost start: seq<Entry>)
      requires d == TheDatabase() && g == d.TheGraph() && g.Valid() && tid in g.types && tid !in alreadyProcessed
      requires j < |aggregates|
      requires Followed(output, start, g, tid, AggregateCount(d, tid, j), alreadyProcessed, trail, currentPath)
      modifies this`output, this`currentPath, this`alreadyProcessed
      ensures currentPath == old(currentPath) && alreadyProcessed == old(alreadyProcessed)
      ensures Followed(output, start, g, tid, AggregateCount(d, tid, j + 1), alreadyProcessed, trail, currentPath)
      decreases Unopened(g, alreadyProcessed), 2
    {
      AggregateEdgeAt(d, tid, j);
      var item := aggregates[j];
      if item.0 == tid || item.1 == tid {
        var other := item.1;
        if item.1 == tid {
          other := item.0;
        }
        Follow(tid, Edge("$" + other.name, other), d, g, AggregateCount(d, tid, j), trail, start);
      }
    }
  }
}
