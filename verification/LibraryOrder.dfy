/**
 The load order of the ns-3 shared libraries: a levelled topological sort of
 the libraries by what they link.  The source recurses without end on a map
 that has no order (a missing or a circular dependency); here that outcome is
 a result of its own, and it is shown to occur for exactly those maps.
 */
module LibraryOrder {
  import opened Wrappers

  datatype Library = Library(name: string)
  type Dependencies = map<Library, seq<Library>>
  type Steps = map<nat, seq<Library>>

  // What the order is for

  ghost predicate Closed(deps: Dependencies) {
    forall l, d :: l in deps && d in deps[l] ==> d in deps
  }

  /** A nonempty sequence of known libraries, each linking the next one. */
  ghost predicate Chain(deps: Dependencies, c: seq<Library>) {
    && |c| > 0
    && (forall i :: 0 <= i < |c| ==> c[i] in deps)
    && (forall i :: 0 <= i < |c| - 1 ==> c[i + 1] in deps[c[i]])
  }

  ghost predicate Acyclic(deps: Dependencies) {
    forall c :: Chain(deps, c) && |c| > 1 ==> c[0] != c[|c| - 1]
  }

  /** n links is the longest way down from l. */
  ghost predicate LongestChain(deps: Dependencies, l: Library, n: nat) {
    && (exists c :: Chain(deps, c) && c[0] == l && |c| == n + 1)
    && (forall c :: Chain(deps, c) && c[0] == l ==> |c| <= n + 1)
  }

  /** Every library of the sequence comes after everything it links. */
  ghost predicate LinksBefore(deps: Dependencies, s: seq<Library>) {
    forall i :: 0 <= i < |s| ==> s[i] in deps && forall d :: d in deps[s[i]] ==> d in s[..i]
  }

  function Flatten(steps: Steps, n: nat): seq<Library>
    requires forall k :: 0 <= k < n ==> k in steps
  {
    if n == 0 then [] else Flatten(steps, n - 1) + steps[n - 1]
  }

  /** A library at level k links only lower levels and, unless k is 0, something at level k - 1. */
  ghost predicate AtLevel(deps: Dependencies, steps: Steps, l: Library, k: nat)
    requires forall j :: 0 <= j < k ==> j in steps
  {
    && l in deps
    && (forall d :: d in deps[l] ==> d in Flatten(steps, k))
    && (k > 0 ==> exists d :: d in deps[l] && d in steps[k - 1])
  }

  ghost predicate Levelled(deps: Dependencies, steps: Steps, n: nat) {
    && (forall k: nat :: k in steps <==> k < n)
    && (forall k, l {:trigger AtLevel(deps, steps, l, k)} ::
          0 <= k < n && l in steps[k] ==> AtLevel(deps, steps, l, k))
  }

  lemma {:induction false} InFlatten(steps: Steps, n: nat, l: Library) returns (k: nat)
    requires forall j :: 0 <= j < n ==> j in steps
    requires l in Flatten(steps, n)
    ensures k < n && l in steps[k]
  {
    if l in steps[n - 1] {
      k := n - 1;
    } else {
      k := InFlatten(steps, n - 1, l);
    }
  }

  lemma ChainCons(deps: Dependencies, l: Library, c: seq<Library>)
    requires l in deps && Chain(deps, c) && c[0] in deps[l]
    ensures Chain(deps, [l] + c)
  {
    var s := [l] + c;
    forall i | 0 <= i < |s| - 1
      ensures s[i + 1] in deps[s[i]]
    {
      assert s[i + 1] == c[i] && s[i] == if i == 0 then l else c[i - 1];
      if i > 0 { assert c[(i - 1) + 1] in deps[c[i - 1]]; }
    }
  }

  lemma LinkBelow(deps: Dependencies, steps: Steps, n: nat, k: nat, l: Library) returns (d: Library)
    requires Levelled(deps, steps, n) && 0 < k < n && l in steps[k]
    ensures l in deps && d in deps[l] && d in steps[k - 1]
  {
    assert AtLevel(deps, steps, l, k);
    d :| d in deps[l] && d in steps[k - 1];
  }

  lemma {:induction false} ChainFromLevel(deps: Dependencies, steps: Steps, n: nat, k: nat, l: Library)
      returns (c: seq<Library>)
    requires Levelled(deps, steps, n) && k < n && l in steps[k]
    ensures Chain(deps, c) && c[0] == l && |c| == k + 1
  {
    if k == 0 {
      assert AtLevel(deps, steps, l, k);
      c := [l];
    } else {
      var d := LinkBelow(deps, steps, n, k, l);
      var rest := ChainFromLevel(deps, steps, n, k - 1, d);
      ChainCons(deps, l, rest);
      c := [l] + rest;
    }
  }

  lemma {:induction false} ChainsAreShort(deps: Dependencies, steps: Steps, n: nat, k: nat, c: seq<Library>)
    requires Levelled(deps, steps, n) && k < n && Chain(deps, c) && c[0] in steps[k]
    ensures |c| <= k + 1
    decreases k
  {
    assert AtLevel(deps, steps, c[0], k);
    if |c| > 1 {
      var j := InFlatten(steps, k, c[1]);
      assert Chain(deps, c[1..]);
      ChainsAreShort(deps, steps, n, j, c[1..]);
    }
  }

  /** The step at which a library is loaded is the length of the longest chain of links below it. */
  lemma StepIsLongestChain(deps: Dependencies, steps: Steps, n: nat, k: nat, l: Library)
    requires Levelled(deps, steps, n) && k < n && l in steps[k]
    ensures LongestChain(deps, l, k)
  {
    var c := ChainFromLevel(deps, steps, n, k, l);
    forall c' | Chain(deps, c') && c'[0] == l
      ensures |c'| <= k + 1
    {
      ChainsAreShort(deps, steps, n, k, c');
    }
  }

  // Which maps have an order

  lemma {:induction false} ChainLeadsBack(deps: Dependencies, s: seq<Library>, c: seq<Library>, i: nat)
    requires LinksBefore(deps, s) && Chain(deps, c) && i < |s| && c[0] == s[i] && |c| > 1
    ensures c[|c| - 1] in s[..i]
  {
    assert c[1] in s[..i];
    var j :| 0 <= j < i && s[j] == c[1];
    if |c| > 2 {
      assert Chain(deps, c[1..]);
      ChainLeadsBack(deps, s, c[1..], j);
      assert c[1..][|c| - 2] == c[|c| - 1];
      assert s[..j] <= s[..i];
    }
  }

  ghost predicate Distinct(s: seq<Library>) {
    forall i, j :: 0 <= i < j < |s| ==> s[i] != s[j]
  }

  lemma OrderedIsSortable(deps: Dependencies, s: seq<Library>)
    requires LinksBefore(deps, s) && Distinct(s) && (forall l :: l in deps <==> l in s)
    ensures Closed(deps) && Acyclic(deps)
  {
    forall l, d | l in deps && d in deps[l]
      ensures d in deps
    {
      var i :| 0 <= i < |s| && s[i] == l;
      assert d in s[..i];
    }
    forall c | Chain(deps, c) && |c| > 1
      ensures c[0] != c[|c| - 1]
    {
      var i :| 0 <= i < |s| && s[i] == c[0];
      ChainLeadsBack(deps, s, c, i);
      var j :| 0 <= j < i && s[j] == c[|c| - 1];
    }
  }

  /** Some library of `pending` keeps each library of `pending` from loading. */
  ghost predicate Blocked(deps: Dependencies, pending: set<Library>) {
    forall p {:trigger BlockedBy(deps, pending, p)} :: p in pending ==> BlockedBy(deps, pending, p)
  }

  ghost predicate BlockedBy(deps: Dependencies, pending: set<Library>, p: Library) {
    p in deps && exists d :: d in deps[p] && d in pending
  }

  lemma {:induction false} BlockedChain(deps: Dependencies, pending: set<Library>, p: Library, n: nat)
      returns (c: seq<Library>)
    requires Blocked(deps, pending) && p in pending
    ensures Chain(deps, c) && c[0] == p && |c| == n + 1
    ensures forall i :: 0 <= i < |c| ==> c[i] in pending
    decreases n
  {
    assert BlockedBy(deps, pending, p);
    if n == 0 {
      c := [p];
    } else {
      var d :| d in deps[p] && d in pending;
      var rest := BlockedChain(deps, pending, d, n - 1);
      ChainCons(deps, p, rest);
      c := [p] + rest;
    }
  }

  lemma {:induction false} Pigeonhole(s: seq<Library>, pool: set<Library>)
    requires Distinct(s) && forall x :: x in s ==> x in pool
    ensures |s| <= |pool|
  {
    if s != [] {
      var last := s[|s| - 1];
      var init := s[..|s| - 1];
      forall x | x in init
        ensures x in pool - {last}
      {
        var i :| 0 <= i < |init| && init[i] == x;
      }
      Pigeonhole(init, pool - {last});
    }
  }

  lemma BlockedHasCycle(deps: Dependencies, pending: set<Library>)
    requires Blocked(deps, pending) && pending != {}
    ensures !Acyclic(deps)
  {
    var p :| p in pending;
    var c := BlockedChain(deps, pending, p, |pending|);
    var i, j := Repetition(c, pending);
    SubChain(deps, c, i, j + 1);
    var cycle := c[i..j + 1];
    assert cycle[0] == c[i] && cycle[|cycle| - 1] == c[j];
  }

  lemma Repetition(s: seq<Library>, pool: set<Library>) returns (i: nat, j: nat)
    requires |s| > |pool| && forall x :: x in s ==> x in pool
    ensures i < j < |s| && s[i] == s[j]
  {
    if Distinct(s) {
      Pigeonhole(s, pool);
    }
    i, j :| 0 <= i < j < |s| && s[i] == s[j];
  }

  lemma SubChain(deps: Dependencies, c: seq<Library>, i: nat, j: nat)
    requires Chain(deps, c) && i < j <= |c|
    ensures Chain(deps, c[i..j])
  {
    var s := c[i..j];
    forall k | 0 <= k < |s| - 1
      ensures s[k + 1] in deps[s[k]]
    {
      assert s[k + 1] == c[(i + k) + 1] && s[k] == c[i + k];
    }
  }

  // The algorithm

  predicate CanBeLoaded(deps: Dependencies, current: seq<Library>, l: Library)
    requires l in deps
  {
    forall d :: d in deps[l] ==> d in current
  }

  method ModulesThatCanBeLoaded(deps: Dependencies, pending: seq<Library>, current: seq<Library>)
      returns (modules: seq<Library>)
    requires forall l :: l in pending ==> l in deps
    ensures multiset(modules) <= multiset(pending)
    ensures forall l :: l in pending ==> (l in modules <==> CanBeLoaded(deps, current, l))
  {
    modules := [];
    for i := 0 to |pending|
      invariant multiset(modules) <= multiset(pending[..i])
      invariant forall l :: l in modules ==> l in pending[..i] && CanBeLoaded(deps, current, l)
      invariant forall l :: l in pending[..i] && CanBeLoaded(deps, current, l) ==> l in modules
    {
      assert pending[..i + 1] == pending[..i] + [pending[i]];
      var canBeLoaded := true;
      var links := deps[pending[i]];
      var j := 0;
      while j < |links| && canBeLoaded
        invariant 0 <= j <= |links|
        invariant canBeLoaded <==> forall k :: 0 <= k < j ==> links[k] in current
      {
        if links[j] !in current {
          canBeLoaded := false;
        }
        j := j + 1;
      }
      if canBeLoaded {
        modules := modules + [pending[i]];
      }
    }
    assert pending[..|pending|] == pending;
  }

  function RemoveFirst(s: seq<Library>, x: Library): (r: seq<Library>)
    requires x in s
    ensures multiset(r) == multiset(s) - multiset{x} && |r| == |s| - 1
  {
    if s[0] == x then
      assert s == [x] + s[1..];
      s[1..]
    else
      assert s == [s[0]] + s[1..];
      [s[0]] + RemoveFirst(s[1..], x)
  }

  class Sorter {
    const deps: Dependencies
    const libraries: seq<Library>
    var pending: seq<Library>
    var current: seq<Library>
    var steps: Steps

    constructor (deps: Dependencies, libraries: seq<Library>)
      requires Distinct(libraries) && forall l :: l in deps <==> l in libraries
      ensures this.deps == deps && this.libraries == libraries
      ensures Valid(0)
    {
      this.deps, this.libraries := deps, libraries;
      pending, current, steps := libraries, [], map[];
      new;
      assert multiset(current) + multiset(pending) == multiset(libraries);
    }

    /** The state at the start of a step. */
    ghost predicate Valid(stepNumber: nat)
      reads this
    {
      && multiset(current) + multiset(pending) == multiset(libraries)
      && Distinct(libraries) && (forall l :: l in deps <==> l in libraries)
      && Levelled(deps, steps, stepNumber)
      && current == Flatten(steps, stepNumber)
      && LinksBefore(deps, current)
      && (forall p :: p in pending ==> p in deps)
      && (stepNumber > 0 ==>
            forall p :: p in pending ==> exists d :: d in deps[p] && d !in Flatten(steps, stepNumber - 1))
    }

    /** Moves one library from `pending` to `current` and records its step. */
    method Load(stepNumber: nat, l: Library)
      requires l in pending && stepNumber in steps
      requires LinksBefore(deps, current) && l in deps && CanBeLoaded(deps, current, l)
      modifies this
      ensures pending == RemoveFirst(old(pending), l)
      ensures current == old(current) + [l] && LinksBefore(deps, current)
      ensures steps == old(steps)[stepNumber := old(steps)[stepNumber] + [l]]
    {
      steps := steps[stepNumber := steps[stepNumber] + [l]];
      pending := RemoveFirst(pending, l);
      AppendLinked(deps, current, l);
      current := current + [l];
    }

    /** Loads one step: everything whose links are loaded already. */
    method LoadStep(stepNumber: nat, modules: seq<Library>)
      requires multiset(modules) <= multiset(pending) && LinksBefore(deps, current) && stepNumber !in steps
      requires forall l :: l in modules ==> l in deps && CanBeLoaded(deps, current, l)
      modifies this
      ensures current == old(current) + modules && LinksBefore(deps, current)
      ensures multiset(pending) + multiset(modules) == multiset(old(pending))
      ensures steps == old(steps)[stepNumber := modules]
    {
      ghost var waiting, loaded, before := pending, current, steps;
      steps := steps[stepNumber := []];
      for i := 0 to |modules|
        invariant multiset(pending) + multiset(modules[..i]) == multiset(waiting)
        invariant current == loaded + modules[..i] && LinksBefore(deps, current)
        invariant steps == before[stepNumber := modules[..i]]
      {
        TakeNext(modules, i, pending, waiting);
        assert CanBeLoaded(deps, loaded, modules[i]);
        Load(stepNumber, modules[i]);
      }
      assert modules[..|modules|] == modules;
    }

    /**
     Sorts what is pending from a given step on.  `ordered` is false where a
     step finds nothing to load, from where the source recurses for ever.
     */
    method DependencyOrder(stepNumber: nat) returns (ordered: bool, count: nat)
      requires Valid(stepNumber)
      modifies this
      ensures ordered ==> pending == [] && Valid(count)
      ensures !ordered ==> !(Closed(deps) && Acyclic(deps))
      decreases |pending|
    {
      if |pending| == 0 {
        return true, stepNumber;
      }
      var modules := ModulesThatCanBeLoaded(deps, pending, current);
      if modules == [] {
        StuckIsUnsortable(deps, libraries, pending, current);
        return false, stepNumber;
      }
      ghost var waiting, loaded, before := pending, current, steps;
      assert forall l :: l in modules ==> l in multiset(modules) && l in multiset(pending);
      LoadStep(stepNumber, modules);
      assert |multiset(pending) + multiset(modules)| == |pending| + |modules|;
      StepKeepsLevels(deps, before, stepNumber, waiting, pending, modules, libraries, loaded);
      ordered, count := DependencyOrder(stepNumber + 1);
    }
  }

  lemma TakeNext(modules: seq<Library>, i: nat, pending: seq<Library>, waiting: seq<Library>)
    requires i < |modules| && multiset(modules) <= multiset(waiting)
    requires multiset(pending) + multiset(modules[..i]) == multiset(waiting)
    ensures modules[i] in pending && modules[..i + 1] == modules[..i] + [modules[i]]
  {
    var m := modules[i];
    assert modules == modules[..i] + [m] + modules[i + 1..];
    assert multiset(modules)[m] >= multiset(modules[..i])[m] + 1;
    assert multiset(modules)[m] <= multiset(waiting)[m];
    assert m in multiset(pending);
  }

  lemma AppendLinked(deps: Dependencies, s: seq<Library>, l: Library)
    requires LinksBefore(deps, s) && l in deps && forall d :: d in deps[l] ==> d in s
    ensures LinksBefore(deps, s + [l])
  {
    var t := s + [l];
    forall i | 0 <= i < |t|
      ensures t[i] in deps && forall d :: d in deps[t[i]] ==> d in t[..i]
    {
      assert t[..i] == s[..i];
    }
  }

  lemma {:induction false} DistinctCount(s: seq<Library>, x: Library)
    requires Distinct(s)
    ensures multiset(s)[x] <= 1
  {
    if s != [] {
      var last := |s| - 1;
      assert s == s[..last] + [s[last]];
      DistinctCount(s[..last], x);
    }
  }

  lemma {:induction false} FlattenFrame(before: Steps, after: Steps, n: nat)
    requires forall k :: 0 <= k < n ==> k in before && k in after && before[k] == after[k]
    ensures Flatten(before, n) == Flatten(after, n)
  {
    if n > 0 {
      FlattenFrame(before, after, n - 1);
    }
  }

  lemma StuckIsUnsortable(deps: Dependencies, libraries: seq<Library>, pending: seq<Library>, current: seq<Library>)
    requires pending != [] && multiset(current) + multiset(pending) == multiset(libraries)
    requires forall l :: l in deps <==> l in libraries
    requires forall l :: l in pending ==> l in deps && !CanBeLoaded(deps, current, l)
    ensures !(Closed(deps) && Acyclic(deps))
  {
    var rest := set l | l in pending;
    assert pending[0] in rest;
    if Closed(deps) {
      forall p | p in rest
        ensures BlockedBy(deps, rest, p)
      {
        var d :| d in deps[p] && d !in current;
        assert d in libraries && d in multiset(libraries);
        assert d in multiset(pending);
      }
      BlockedHasCycle(deps, rest);
    }
  }

  lemma StepKeepsLevels(deps: Dependencies, before: Steps, n: nat, waiting: seq<Library>, pending: seq<Library>,
                        modules: seq<Library>, libraries: seq<Library>, loaded: seq<Library>)
    requires Levelled(deps, before, n) && loaded == Flatten(before, n)
    requires multiset(loaded) + multiset(waiting) == multiset(libraries) && Distinct(libraries)
    requires multiset(pending) + multiset(modules) == multiset(waiting)
    requires forall p :: p in waiting ==> p in deps && (p in modules <==> CanBeLoaded(deps, loaded, p))
    requires n > 0 ==> forall p :: p in waiting ==> exists d :: d in deps[p] && d !in Flatten(before, n - 1)
    ensures var after := before[n := modules];
            && Levelled(deps, after, n + 1) && Flatten(after, n + 1) == loaded + modules
            && (forall p :: p in pending ==> p in deps && exists d :: d in deps[p] && d !in Flatten(after, n))
  {
    var after := before[n := modules];
    FlattenFrame(before, after, n);
    forall k, l | 0 <= k < n + 1 && l in after[k]
      ensures AtLevel(deps, after, l, k)
    {
      FlattenFrame(before, after, k);
      if k < n {
        assert AtLevel(deps, before, l, k);
      } else {
        assert l in multiset(modules) && l in multiset(waiting) && l in waiting;
        NewLevel(deps, before, after, n, l);
      }
    }
    forall p | p in pending
      ensures p in deps && exists d :: d in deps[p] && d !in Flatten(after, n)
    {
      LeftBehind(waiting, pending, modules, libraries, loaded, p);
    }
  }

  lemma NewLevel(deps: Dependencies, before: Steps, after: Steps, n: nat, l: Library)
    requires forall k: nat :: k in before <==> k < n
    requires forall k :: 0 <= k < n ==> k in after && after[k] == before[k]
    requires l in deps && CanBeLoaded(deps, Flatten(before, n), l)
    requires n > 0 ==> exists d :: d in deps[l] && d !in Flatten(before, n - 1)
    ensures AtLevel(deps, after, l, n)
  {
    FlattenFrame(before, after, n);
    if n > 0 {
      var d :| d in deps[l] && d !in Flatten(before, n - 1);
      assert d in Flatten(before, n) && d in after[n - 1];
    }
  }

  /** A library that stays pending was waiting and is not among those of the step. */
  lemma LeftBehind(waiting: seq<Library>, pending: seq<Library>, modules: seq<Library>, libraries: seq<Library>,
                   loaded: seq<Library>, p: Library)
    requires multiset(loaded) + multiset(waiting) == multiset(libraries) && Distinct(libraries)
    requires multiset(pending) + multiset(modules) == multiset(waiting) && p in pending
    ensures p in waiting && p !in modules
  {
    DistinctCount(libraries, p);
    assert p in multiset(pending);
    assert p !in multiset(modules);
    assert p in multiset(waiting);
  }

  lemma PermutationDistinct(s: seq<Library>, t: seq<Library>)
    requires Distinct(s) && multiset(s) == multiset(t)
    ensures Distinct(t)
  {
    forall i, j | 0 <= i < j < |t|
      ensures t[i] != t[j]
    {
      DistinctCount(s, t[i]);
      assert t == t[..i] + [t[i]] + t[i + 1..j] + [t[j]] + t[j + 1..];
    }
  }

  lemma PermutationIsSortable(deps: Dependencies, libraries: seq<Library>, sorted: seq<Library>)
    requires Distinct(libraries) && (forall l :: l in deps <==> l in libraries)
    requires multiset(sorted) == multiset(libraries) && LinksBefore(deps, sorted)
    ensures Closed(deps) && Acyclic(deps)
  {
    assert forall l :: l in sorted <==> l in multiset(sorted);
    assert forall l :: l in libraries <==> l in multiset(libraries);
    PermutationDistinct(libraries, sorted);
    OrderedIsSortable(deps, sorted);
  }

  /** What sorted steps mean for the whole order. */
  lemma SortedSteps(deps: Dependencies, libraries: seq<Library>, steps: Steps, count: nat)
    requires Distinct(libraries) && (forall l :: l in deps <==> l in libraries)
    requires Levelled(deps, steps, count) && LinksBefore(deps, Flatten(steps, count))
    requires multiset(Flatten(steps, count)) == multiset(libraries)
    ensures Closed(deps) && Acyclic(deps)
    ensures forall k, l :: 0 <= k < count && l in steps[k] ==> LongestChain(deps, l, k)
  {
    PermutationIsSortable(deps, libraries, Flatten(steps, count));
    forall k, l | 0 <= k < count && l in steps[k]
      ensures LongestChain(deps, l, k)
    {
      StepIsLongestChain(deps, steps, count, k, l);
    }
  }

  method Concatenated(steps: Steps, count: nat) returns (sorted: seq<Library>)
    requires forall k :: 0 <= k < count ==> k in steps
    ensures sorted == Flatten(steps, count)
  {
    sorted := [];
    for k := 0 to count
      invariant sorted == Flatten(steps, k)
    {
      sorted := sorted + steps[k];
    }
  }

  /**
   The whole sort.  It succeeds exactly for maps without missing and circular
   dependencies, with a permutation of the libraries in which each comes
   after everything it links, loaded in as many steps as the chains are long.
   */
  method SortToDependencies(deps: Dependencies, libraries: seq<Library>)
      returns (r: Option<seq<Library>>, steps: Steps, count: nat)
    requires Distinct(libraries) && forall l :: l in deps <==> l in libraries
    ensures r.Some? <==> Closed(deps) && Acyclic(deps)
    ensures r.Some? ==> multiset(r.value) == multiset(libraries) && LinksBefore(deps, r.value)
    ensures r.Some? ==> (forall k: nat :: k in steps <==> k < count) && r.value == Flatten(steps, count)
    ensures r.Some? ==> forall k, l :: 0 <= k < count && l in steps[k] ==> LongestChain(deps, l, k)
  {
    var sorter := new Sorter(deps, libraries);
    var ordered;
    ordered, count := sorter.DependencyOrder(0);
    steps := sorter.steps;
    if !ordered {
      return None, steps, count;
    }
    assert multiset(sorter.current) == multiset(libraries);
    SortedSteps(deps, libraries, steps, count);
    var sorted := Concatenated(steps, count);
    r := Some(sorted);
  }
}
