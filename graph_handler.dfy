/**
 * `GraphCallHandler` (tests/test_simple_graph.py:17-82): a handler whose
 * attributes the wrapper's calls update in place. Every method is proved
 * against the value-level functions of `GraphSpec`.
 */
module GraphHandler {
  import opened Python
  import opened GraphSpec

  /** The elements of a list. */
  function Elems<K>(s: seq<K>): set<K>
  {
    set x | x in s
  }

  /**
   * `xs.extend(s)` for a set `s`: the elements of `s` are appended once each,
   * in an order the model leaves open (Python's set iteration order).
   */
  method Extend<K>(xs: seq<K>, s: set<K>) returns (ys: seq<K>)
    ensures |ys| == |xs| + |s|
    ensures ys[..|xs|] == xs
    ensures Elems(ys[|xs|..]) == s
    ensures Elems(ys) == Elems(xs) + s
  {
    ys := xs;
    var rest := s;
    while rest != {}
      invariant rest <= s
      invariant |ys| == |xs| + |s| - |rest|
      invariant ys[..|xs|] == xs
      invariant Elems(ys[|xs|..]) == s - rest
      decreases |rest|
    {
      var y :| y in rest;
      ghost var prev := ys;
      ys := ys + [y];
      rest := rest - {y};
      assert ys[|xs|..] == prev[|xs|..] + [y];
      assert Elems(ys[|xs|..]) == Elems(prev[|xs|..]) + {y};
    }
    assert ys == ys[..|xs|] + ys[|xs|..];
  }

  class GraphCallHandler<K(==), V> {
    var stack: seq<K>
    var parents: map<K, set<K>>
    var children: map<K, set<K>>
    var retvals: map<K, V>

    /** The handler's attributes as one value. */
    function Model(): Graph<K, V>
      reads this
    {
      Graph(stack, parents, children, retvals)
    }

    /** The handler invariant: `children` and `parents` are inverse. */
    ghost predicate Valid()
      reads this
    {
      GraphSpec.Valid(Model())
    }

    /** `__init__`: empty stack, edge maps and cache. */
    constructor ()
      ensures Model() == Initial() && Valid()
    {
      stack := [];
      parents := map[];
      children := map[];
      retvals := map[];
    }

    /** `__contains__`. */
    method Contains(key: K) returns (hit: bool)
      modifies this
      ensures (Model(), hit) == Test(old(Model()), key)
      ensures old(Valid()) ==> Valid()
    {
      if stack != [] {
        var top := stack[|stack| - 1];
        children := AddTo(children, top, key);
        parents := AddTo(parents, key, top);
      }
      hit := key in retvals;
      if !hit {
        stack := stack + [key];
      }
      if old(Valid()) {
        TestKeepsInverse(old(Model()), key);
      }
    }

    /** `__getitem__`: the cached value, or `KeyError` for an absent key. */
    method GetItem(key: K) returns (r: Result<V>)
      ensures r.Ok? <==> key in retvals
      ensures r.Ok? ==> r.value == retvals[key]
      ensures r.Err? ==> r.kind == KeyError
    {
      if key in retvals {
        r := Ok(retvals[key]);
      } else {
        r := Err(KeyError);
      }
    }

    /** `__setitem__`; `ok` is false when the pop raised `IndexError`. */
    method SetItem(key: K, value: V) returns (ok: bool)
      modifies this
      ensures (Model(), ok) == Store(old(Model()), key, value)
      ensures old(Valid()) ==> Valid()
    {
      retvals := retvals[key := value];
      ok := stack != [];
      if ok {
        stack := stack[..|stack| - 1];
      }
    }

    /**
     * The inner loop of `bump`: `handler.parents[child].remove(dep)` for every
     * child that still has a parents entry. `remove` would raise `KeyError`
     * if `dep` were missing; the precondition says it is not.
     */
    method UnlinkChildren(dep: K, kids: set<K>)
      requires forall c :: c in kids && c in parents ==> dep in parents[c]
      modifies this
      ensures parents == Unlinked(old(parents), dep, kids)
      ensures stack == old(stack) && children == old(children) && retvals == old(retvals)
    {
      var rest := kids;
      while rest != {}
        invariant rest <= kids
        invariant parents.Keys == old(parents).Keys
        invariant forall k :: k in parents ==> parents[k] == if k in kids - rest then old(parents)[k] - {dep} else old(parents)[k]
        invariant stack == old(stack) && children == old(children) && retvals == old(retvals)
        decreases |rest|
      {
        var child :| child in rest;
        if child in parents {
          parents := parents[child := parents[child] - {dep}];
        }
        rest := rest - {child};
      }
    }

    /**
     * `bump`: a new handler in which every transitive dependent of a changed
     * key has lost its cached value and its edges, and the changes are cached.
     * The receiver is left as it was (the method modifies nothing that exists).
     */
    method Bump(changes: map<K, V>) returns (h: GraphCallHandler<K, V>)
      requires Valid()
      ensures fresh(h)
      ensures h.Model() == GraphSpec.Bump(Model(), changes)
      ensures h.Valid()
    {
      h := new GraphCallHandler();
      h.retvals := retvals;
      h.children := children;
      h.parents := parents;
      var deps := Extend([], changes.Keys);
      h.Propagate(Model(), changes.Keys, deps);
      // handler.retvals.update(changes)
      h.retvals := h.retvals + changes;
      BumpKeepsInverse(Model(), changes);
    }

    /**
     * `bump`'s loop over its work list `deps`, which grows while it is
     * walked: afterwards every dependent of `seeds` has been visited once.
     */
    method Propagate(ghost g0: Graph<K, V>, ghost seeds: set<K>, deps0: seq<K>)
      requires GraphSpec.Valid(g0) && Elems(deps0) == seeds
      requires stack == [] && parents == g0.parents && children == g0.children && retvals == g0.retvals
      modifies this
      ensures stack == [] && parents == Strip(g0.parents, Dependents(g0.parents, seeds))
      ensures children == g0.children - Dependents(g0.parents, seeds)
      ensures retvals == g0.retvals - Dependents(g0.parents, seeds)
    {
      var deps := deps0;
      ghost var visited: set<K> := {};
      StripNothing(g0.parents);
      FrontierStart(g0.parents, seeds, deps);
      var i := 0;
      while i < |deps|
        invariant Frontier(g0.parents, seeds, deps, i, visited)
        invariant stack == [] && parents == Strip(g0.parents, visited)
        invariant children == g0.children - visited && retvals == g0.retvals - visited
        decreases |parents.Keys|, |deps| - i
      {
        var dep := deps[i];
        deps := Advance(g0, seeds, deps, i, visited);
        visited := visited + {dep};
        i := i + 1;
      }
      FrontierDone(g0.parents, seeds, deps, visited);
    }

    /** One iteration of `bump`'s loop: visit `deps[i]` and extend `deps`. */
    method Advance(ghost g0: Graph<K, V>, ghost seeds: set<K>, deps: seq<K>, i: nat, ghost visited: set<K>)
      returns (deps': seq<K>)
      requires GraphSpec.Valid(g0) && Frontier(g0.parents, seeds, deps, i, visited) && i < |deps|
      requires stack == [] && parents == Strip(g0.parents, visited)
      requires children == g0.children - visited && retvals == g0.retvals - visited
      modifies this
      ensures Frontier(g0.parents, seeds, deps', i + 1, visited + {deps[i]})
      ensures stack == [] && parents == Strip(g0.parents, visited + {deps[i]})
      ensures children == g0.children - (visited + {deps[i]}) && retvals == g0.retvals - (visited + {deps[i]})
      ensures |parents.Keys| < old(|parents.Keys|) || (|parents.Keys| == old(|parents.Keys|) && |deps'| == |deps|)
    {
      var ps := VisitKey(g0, visited, deps[i]);
      deps' := Extend(deps, ps);
      FrontierStep(g0.parents, seeds, deps, i, visited, deps');
    }

    /**
     * The visit of one key `dep` by `bump`'s loop, from the state in which
     * the keys of `visited` have been visited; `ps` is what `deps` is
     * extended with.
     */
    method VisitKey(ghost g0: Graph<K, V>, ghost visited: set<K>, dep: K) returns (ps: set<K>)
      requires GraphSpec.Valid(g0)
      requires stack == [] && parents == Strip(g0.parents, visited)
      requires children == g0.children - visited && retvals == g0.retvals - visited
      modifies this
      ensures ps == Get(Strip(g0.parents, visited), dep)
      ensures stack == [] && parents == Strip(g0.parents, visited + {dep})
      ensures children == g0.children - (visited + {dep}) && retvals == g0.retvals - (visited + {dep})
      ensures |parents.Keys| < old(|parents.Keys|) || (|parents.Keys| == old(|parents.Keys|) && ps == {})
    {
      VisitOne(g0, visited, dep);
      ghost var keys := parents.Keys;
      ps := Visit(dep);
      if dep in keys {
        assert |parents.Keys| < |keys| by {
          assert keys == parents.Keys + {dep};
        }
      }
    }

    /**
     * One pass of `bump`'s loop on `dep`: `parents.pop(dep, set())` (whose
     * result is returned for `deps.extend`), `retvals.pop(dep, None)`, and for
     * every child popped from `children`, `parents[child].remove(dep)`.
     */
    method Visit(dep: K) returns (ps: set<K>)
      requires forall c :: c in Get(children, dep) && c in parents && c != dep ==> dep in parents[c]
      modifies this
      ensures ps == Get(old(parents), dep)
      ensures parents.Keys == old(parents).Keys - {dep}
      ensures parents == Unlinked(old(parents) - {dep}, dep, Get(old(children), dep))
      ensures children == old(children) - {dep}
      ensures retvals == old(retvals) - {dep}
      ensures stack == old(stack)
    {
      ps := {};
      if dep in parents {
        ps := parents[dep];
        parents := parents - {dep};
      }
      retvals := retvals - {dep};
      var kids := if dep in children then children[dep] else {};
      children := children - {dep};
      UnlinkChildren(dep, kids);
    }
  }

  /** The parent map after `remove(dep)` from the entry of every child in `kids`. */
  function Unlinked<K>(parents: map<K, set<K>>, dep: K, kids: set<K>): map<K, set<K>>
  {
    map k | k in parents :: if k in kids then parents[k] - {dep} else parents[k]
  }

  lemma StripNothing<K>(parents: map<K, set<K>>)
    ensures Strip(parents, {}) == parents
  {
    assert forall k :: k in parents ==> parents[k] - {} == parents[k];
  }

  /**
   * One visit of `bump`'s loop, stated on values: from the state in which the
   * keys of `visited` have been processed, processing `dep` reaches the state
   * in which `visited + {dep}` have been, and the `remove` calls cannot fail.
   */
  lemma VisitOne<K, V>(g0: Graph<K, V>, visited: set<K>, dep: K)
    requires GraphSpec.Valid(g0)
    ensures var popped := Strip(g0.parents, visited) - {dep};
      var kids := Get(g0.children - visited, dep);
      && (forall c :: c in kids && c in popped ==> dep in popped[c])
      && Unlinked(popped, dep, kids) == Strip(g0.parents, visited + {dep})
      && (g0.children - visited) - {dep} == g0.children - (visited + {dep})
      && (g0.retvals - visited) - {dep} == g0.retvals - (visited + {dep})
  {
    if dep !in visited {
      StripStep(g0.children, g0.parents, visited, dep);
    } else {
      assert visited + {dep} == visited;
    }
  }

  /** What `bump`'s work list `deps` satisfies once `i` of its entries have been visited. */
  ghost predicate Frontier<K>(parents: map<K, set<K>>, seeds: set<K>, deps: seq<K>, i: nat, visited: set<K>)
  {
    && i <= |deps|
    && visited == Elems(deps[..i])
    && seeds <= Elems(deps)
    && Elems(deps) <= Dependents(parents, seeds)
    && (forall x :: x in visited && x in parents ==> parents[x] <= Elems(deps))
  }

  lemma FrontierStart<K>(parents: map<K, set<K>>, seeds: set<K>, deps: seq<K>)
    requires Elems(deps) == seeds
    ensures Frontier(parents, seeds, deps, 0, {})
  {
    assert deps[..0] == [];
  }

  lemma FrontierStep<K>(parents: map<K, set<K>>, seeds: set<K>, deps: seq<K>, i: nat, visited: set<K>, deps': seq<K>)
    requires Frontier(parents, seeds, deps, i, visited) && i < |deps|
    requires |deps| <= |deps'| && deps'[..|deps|] == deps
    requires Elems(deps') == Elems(deps) + Get(Strip(parents, visited), deps[i])
    ensures Frontier(parents, seeds, deps', i + 1, visited + {deps[i]})
  {
    var dep := deps[i];
    assert deps'[..i + 1] == deps[..i] + [dep] by {
      assert deps'[..i + 1] == deps[..i + 1];
    }
    if dep in parents {
      assert dep in Dependents(parents, seeds);
    }
  }

  lemma FrontierDone<K>(parents: map<K, set<K>>, seeds: set<K>, deps: seq<K>, visited: set<K>)
    requires Frontier(parents, seeds, deps, |deps|, visited)
    ensures visited == Dependents(parents, seeds)
  {
    assert deps[..|deps|] == deps;
    DependentsLeast(parents, seeds, visited);
  }
}
