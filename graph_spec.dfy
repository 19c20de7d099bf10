/**
 * Value-level specification of the dependency-graph cache (`GraphCallHandler`
 * in tests/test_simple_graph.py). The class in graph_handler.dfy is proved
 * against these functions; the lemmas here state what the handler promises.
 *
 * `parents` and `children` are Python `defaultdict(set)`s: reading an absent
 * key yields the empty set (`Get`), and `d[k].add(x)` creates the entry
 * (`AddTo`). Key presence is still observable (`bump` pops entries and asks
 * `child in handler.parents`), so the maps keep their real key sets.
 */
module GraphSpec {
  import opened Python

  /** The four attributes of a `GraphCallHandler`. */
  datatype Graph<K, V> = Graph(
    stack: seq<K>,
    parents: map<K, set<K>>,
    children: map<K, set<K>>,
    retvals: map<K, V>)

  /** The state built by `GraphCallHandler.__init__`. */
  function Initial<K, V>(): Graph<K, V>
  {
    Graph([], map[], map[], map[])
  }

  /** Reading `m[k]` on a `defaultdict(set)` without storing the default. */
  function Get<K>(m: map<K, set<K>>, k: K): set<K>
  {
    if k in m then m[k] else {}
  }

  /** `m[k].add(x)` on a `defaultdict(set)`. */
  function AddTo<K>(m: map<K, set<K>>, k: K, x: K): (r: map<K, set<K>>)
    ensures r.Keys == m.Keys + {k}
    ensures Get(r, k) == Get(m, k) + {x}
    ensures forall j :: j != k && j in m ==> r[j] == m[j]
  {
    m[k := Get(m, k) + {x}]
  }

  /** `children` and `parents` describe the same edge set, seen from both ends. */
  ghost predicate Inverse<K>(children: map<K, set<K>>, parents: map<K, set<K>>)
  {
    && (forall p, c :: p in children && c in children[p] ==> c in parents && p in parents[c])
    && (forall c, p :: c in parents && p in parents[c] ==> p in children && c in children[p])
  }

  ghost predicate Valid<K, V>(g: Graph<K, V>)
  {
    Inverse(g.children, g.parents)
  }

  // ---------------------------------------------------------------------
  // The three handler operations
  // ---------------------------------------------------------------------

  /**
   * `__contains__`: when a call is running (non-empty stack) record the edge
   * top -> key on both sides, then answer from the cache; a miss pushes the key.
   */
  function Test<K, V>(g: Graph<K, V>, key: K): (Graph<K, V>, bool)
  {
    var g1 :=
      if g.stack != [] then
        var top := g.stack[|g.stack| - 1];
        g.(children := AddTo(g.children, top, key), parents := AddTo(g.parents, key, top))
      else g;
    if key in g1.retvals then (g1, true) else (g1.(stack := g1.stack + [key]), false)
  }

  /** `__getitem__`: the cached value, or `KeyError` for an absent key. */
  function Fetch<K, V>(g: Graph<K, V>, key: K): Result<V>
  {
    if key in g.retvals then Ok(g.retvals[key]) else Err(KeyError)
  }

  /**
   * `__setitem__`: the value is stored first, then the stack is popped; the
   * boolean is false when the pop raised `IndexError` on an empty stack
   * (the value has been stored all the same).
   */
  function Store<K, V>(g: Graph<K, V>, key: K, value: V): (Graph<K, V>, bool)
  {
    var g1 := g.(retvals := g.retvals[key := value]);
    if g1.stack == [] then (g1, false) else (g1.(stack := g1.stack[..|g1.stack| - 1]), true)
  }

  lemma TestAnswer<K, V>(g: Graph<K, V>, key: K)
    ensures Test(g, key).1 <==> key in g.retvals
    ensures Test(g, key).0.retvals == g.retvals
    ensures Test(g, key).0.stack == if key in g.retvals then g.stack else g.stack + [key]
  {
  }

  /** The only edge `__contains__` adds is top -> key, and only below a running call. */
  lemma TestEdges<K, V>(g: Graph<K, V>, key: K, p: K, c: K)
    ensures c in Get(Test(g, key).0.children, p) <==>
              c in Get(g.children, p) || (g.stack != [] && p == g.stack[|g.stack| - 1] && c == key)
    ensures p in Get(Test(g, key).0.parents, c) <==>
              p in Get(g.parents, c) || (g.stack != [] && p == g.stack[|g.stack| - 1] && c == key)
  {
  }

  lemma FetchAnswer<K, V>(g: Graph<K, V>, key: K)
    ensures Fetch(g, key).Ok? <==> key in g.retvals
    ensures key in g.retvals ==> Fetch(g, key).value == g.retvals[key]
  {
  }

  lemma StoreEffect<K, V>(g: Graph<K, V>, key: K, value: V)
    ensures Store(g, key, value).0.retvals == g.retvals[key := value]
    ensures Store(g, key, value).1 <==> g.stack != []
    ensures g.stack != [] ==> Store(g, key, value).0.stack + [g.stack[|g.stack| - 1]] == g.stack
    ensures Store(g, key, value).0.parents == g.parents
    ensures Store(g, key, value).0.children == g.children
  {
  }

  lemma {:induction false} TestKeepsInverse<K, V>(g: Graph<K, V>, key: K)
    requires Valid(g)
    ensures Valid(Test(g, key).0)
  {
    var g' := Test(g, key).0;
    forall p, c ensures c in Get(g'.children, p) <==> p in Get(g'.parents, c) {
      TestEdges(g, key, p, c);
    }
  }

  // ---------------------------------------------------------------------
  // Sequences of handler calls
  // ---------------------------------------------------------------------

  /** One interaction of the wrapper with the handler that changes its state. */
  datatype Op<K, V> = Call(key: K) | Return(key: K, value: V)

  /** The state after a sequence of `__contains__` / `__setitem__` calls. */
  function Run<K, V>(g: Graph<K, V>, ops: seq<Op<K, V>>): Graph<K, V>
    decreases |ops|
  {
    if ops == [] then g
    else
      var g1 := match ops[0]
        case Call(k) => Test(g, k).0
        case Return(k, v) => Store(g, k, v).0;
      Run(g1, ops[1..])
  }

  /** Edge symmetry holds in every state reachable from `__init__`. */
  lemma {:induction false} RunKeepsInverse<K, V>(g: Graph<K, V>, ops: seq<Op<K, V>>)
    requires Valid(g)
    ensures Valid(Run(g, ops))
    decreases |ops|
  {
    if ops != [] {
      match ops[0]
      case Call(k) => TestKeepsInverse(g, k); RunKeepsInverse(Test(g, k).0, ops[1..]);
      case Return(k, v) => RunKeepsInverse(Store(g, k, v).0, ops[1..]);
    }
  }

  lemma {:induction false} ReachableIsValid<K, V>(ops: seq<Op<K, V>>)
    ensures Valid(Run(Initial(), ops))
  {
    RunKeepsInverse(Initial(), ops);
  }

  // ---------------------------------------------------------------------
  // Dependents: the keys reachable upward through `parents`
  // ---------------------------------------------------------------------

  /** The parents of the keys in `s`. */
  function Step<K>(parents: map<K, set<K>>, s: set<K>): set<K>
  {
    set k, p | k in s && k in parents && p in parents[k] :: p
  }

  /** Every key that occurs in the map, as a key or inside a value. */
  ghost function Nodes<K>(parents: map<K, set<K>>): set<K>
  {
    parents.Keys + set k, p | k in parents && p in parents[k] :: p
  }

  lemma ProperSubsetSmaller<K>(a: set<K>, b: set<K>)
    requires a < b
    ensures |a| < |b|
  {
    var x :| x in b && x !in a;
    var rest := b - a;
    assert b == a + rest && a * rest == {};
    assert x in rest;
  }

  /** A set closed under taking parents. */
  ghost predicate Closed<K>(parents: map<K, set<K>>, s: set<K>)
  {
    forall k :: k in s && k in parents ==> parents[k] <= s
  }

  /**
   * The upward closure of `seeds`: the seeds, their parents, their parents'
   * parents, and so on. This is the set of keys `bump` visits.
   */
  function Dependents<K>(parents: map<K, set<K>>, seeds: set<K>): (d: set<K>)
    ensures seeds <= d
    ensures Closed(parents, d)
    decreases |Nodes(parents) - seeds|
  {
    var next := seeds + Step(parents, seeds);
    if next == seeds then
      assert Closed(parents, seeds) by {
        forall k, p | k in seeds && k in parents && p in parents[k] ensures p in seeds {
          assert p in Step(parents, seeds);
        }
      }
      seeds
    else
      var x :| x in next && x !in seeds;
      assert x in Nodes(parents);
      ProperSubsetSmaller(Nodes(parents) - next, Nodes(parents) - seeds);
      Dependents(parents, next)
  }

  /** `Dependents` is the least closed set containing the seeds. */
  lemma {:induction false} DependentsLeast<K>(parents: map<K, set<K>>, seeds: set<K>, t: set<K>)
    requires seeds <= t && Closed(parents, t)
    ensures Dependents(parents, seeds) <= t
    decreases |Nodes(parents) - seeds|
  {
    var next := seeds + Step(parents, seeds);
    if next != seeds {
      var x :| x in next && x !in seeds;
      assert x in Nodes(parents);
      ProperSubsetSmaller(Nodes(parents) - next, Nodes(parents) - seeds);
      DependentsLeast(parents, next, t);
    }
  }

  /** `path` climbs from child to parent at every step. */
  ghost predicate UpwardPath<K(!new)>(parents: map<K, set<K>>, path: seq<K>)
  {
    forall i :: 0 <= i < |path| - 1 ==> path[i + 1] in Get(parents, path[i])
  }

  /** `k` depends on one of `seeds`: some upward path leads from a seed to `k`. */
  ghost predicate DependsOn<K(!new)>(parents: map<K, set<K>>, seeds: set<K>, k: K)
  {
    exists path: seq<K> :: |path| > 0 && path[0] in seeds && UpwardPath(parents, path) && path[|path| - 1] == k
  }

  lemma {:induction false} PathStaysInClosed<K(!new)>(parents: map<K, set<K>>, s: set<K>, path: seq<K>)
    requires Closed(parents, s) && UpwardPath(parents, path) && |path| > 0 && path[0] in s
    ensures path[|path| - 1] in s
    decreases |path|
  {
    if |path| > 1 {
      var front := path[..|path| - 1];
      assert UpwardPath(parents, front) by {
        forall i | 0 <= i < |front| - 1 ensures front[i + 1] in Get(parents, front[i]) {
          assert front[i] == path[i] && front[i + 1] == path[i + 1];
        }
      }
      PathStaysInClosed(parents, s, front);
      assert path[|path| - 2] in s && path[|path| - 1] in Get(parents, path[|path| - 2]);
    }
  }

  lemma {:induction false} ExtendPath<K(!new)>(parents: map<K, set<K>>, seeds: set<K>, k: K, p: K)
    requires DependsOn(parents, seeds, k) && k in parents && p in parents[k]
    ensures DependsOn(parents, seeds, p)
  {
    var path :| |path| > 0 && path[0] in seeds && UpwardPath(parents, path) && path[|path| - 1] == k;
    var longer := path + [p];
    assert UpwardPath(parents, longer) by {
      forall i | 0 <= i < |longer| - 1 ensures longer[i + 1] in Get(parents, longer[i]) {
        if i < |path| - 1 {
          assert longer[i] == path[i] && longer[i + 1] == path[i + 1];
        }
      }
    }
    assert longer[0] in seeds && longer[|longer| - 1] == p;
  }

  lemma {:induction false} DependentsReachable<K(!new)>(parents: map<K, set<K>>, origin: set<K>, seeds: set<K>)
    requires forall k :: k in seeds ==> DependsOn(parents, origin, k)
    ensures forall k :: k in Dependents(parents, seeds) ==> DependsOn(parents, origin, k)
    decreases |Nodes(parents) - seeds|
  {
    var next := seeds + Step(parents, seeds);
    if next != seeds {
      forall p | p in next ensures DependsOn(parents, origin, p) {
        if p !in seeds {
          var k :| k in seeds && k in parents && p in parents[k];
          ExtendPath(parents, origin, k, p);
        }
      }
      var x :| x in next && x !in seeds;
      assert x in Nodes(parents);
      ProperSubsetSmaller(Nodes(parents) - next, Nodes(parents) - seeds);
      DependentsReachable(parents, origin, next);
    }
  }

  /** `Dependents` is exactly the set of keys that depend on a seed. */
  lemma {:induction false} DependentsIsReachability<K(!new)>(parents: map<K, set<K>>, seeds: set<K>, k: K)
    ensures k in Dependents(parents, seeds) <==> DependsOn(parents, seeds, k)
  {
    if k in Dependents(parents, seeds) {
      forall s | s in seeds ensures DependsOn(parents, seeds, s) {
        assert [s][0] in seeds && UpwardPath(parents, [s]);
      }
      DependentsReachable(parents, seeds, seeds);
    }
    if DependsOn(parents, seeds, k) {
      var path :| |path| > 0 && path[0] in seeds && UpwardPath(parents, path) && path[|path| - 1] == k;
      PathStaysInClosed(parents, Dependents(parents, seeds), path);
    }
  }

  // ---------------------------------------------------------------------
  // bump
  // ---------------------------------------------------------------------

  /**
   * The handler `bump` returns: empty stack; every dependent of a changed key
   * loses its cached value and its edges; every other key keeps its value and
   * its children, and forgets the dependents among its parents; the changes
   * are then written over the cache.
   */
  function Bump<K, V>(g: Graph<K, V>, changes: map<K, V>): Graph<K, V>
  {
    var d := Dependents(g.parents, changes.Keys);
    Graph([], Strip(g.parents, d), g.children - d, (g.retvals - d) + changes)
  }

  /** The parent sets of the keys outside `gone`, with `gone` taken out of each. */
  function Strip<K>(parents: map<K, set<K>>, gone: set<K>): map<K, set<K>>
  {
    map k | k in parents && k !in gone :: parents[k] - gone
  }

  /**
   * One visit of `bump`'s loop on a key `dep` not seen before: dropping the
   * entry of `dep` and removing `dep` from the parent set of each of its
   * children is the same as stripping one more key.
   */
  lemma StripStep<K>(children: map<K, set<K>>, parents: map<K, set<K>>, gone: set<K>, dep: K)
    requires Inverse(children, parents) && dep !in gone
    ensures var popped := Strip(parents, gone) - {dep};
      (map k | k in popped :: if k in Get(children, dep) then popped[k] - {dep} else popped[k])
        == Strip(parents, gone + {dep})
  {
    var popped := Strip(parents, gone) - {dep};
    var lhs := map k | k in popped :: if k in Get(children, dep) then popped[k] - {dep} else popped[k];
    var rhs := Strip(parents, gone + {dep});
    assert lhs.Keys == rhs.Keys;
    forall k | k in lhs ensures lhs[k] == rhs[k] {
      assert dep in parents[k] ==> k in Get(children, dep);
    }
  }

  /** A dependent of a changed key is evicted, unless it is changed itself. */
  lemma BumpEvicts<K(!new), V>(g: Graph<K, V>, changes: map<K, V>, k: K)
    requires DependsOn(g.parents, changes.Keys, k)
    ensures k in changes ==> k in Bump(g, changes).retvals && Bump(g, changes).retvals[k] == changes[k]
    ensures k !in changes ==> k !in Bump(g, changes).retvals
    ensures k !in Bump(g, changes).parents && k !in Bump(g, changes).children
  {
    DependentsIsReachability(g.parents, changes.Keys, k);
  }

  /** Every cache entry that does not depend on a changed key survives as it was. */
  lemma BumpKeeps<K(!new), V>(g: Graph<K, V>, changes: map<K, V>, k: K)
    requires !DependsOn(g.parents, changes.Keys, k)
    ensures k in Bump(g, changes).retvals <==> k in g.retvals
    ensures k in g.retvals ==> Bump(g, changes).retvals[k] == g.retvals[k]
    ensures Get(Bump(g, changes).children, k) == Get(g.children, k)
    ensures k in Bump(g, changes).parents <==> k in g.parents
  {
    DependentsIsReachability(g.parents, changes.Keys, k);
    assert k !in changes;
  }

  /** Surviving keys lose exactly their dependent parents. */
  lemma BumpParents<K(!new), V>(g: Graph<K, V>, changes: map<K, V>, k: K, p: K)
    requires !DependsOn(g.parents, changes.Keys, k)
    ensures p in Get(Bump(g, changes).parents, k) <==>
              p in Get(g.parents, k) && !DependsOn(g.parents, changes.Keys, p)
  {
    DependentsIsReachability(g.parents, changes.Keys, k);
    DependentsIsReachability(g.parents, changes.Keys, p);
  }

  /** `bump` hands back a handler that again satisfies the edge symmetry. */
  lemma {:induction false} BumpKeepsInverse<K, V>(g: Graph<K, V>, changes: map<K, V>)
    requires Valid(g)
    ensures Valid(Bump(g, changes))
  {
    var d := Dependents(g.parents, changes.Keys);
    var r := Bump(g, changes);
    forall p, c ensures c in Get(r.children, p) <==> p in Get(r.parents, c) {
      assert c in Get(g.children, p) <==> p in Get(g.parents, c);
      if c in Get(r.children, p) {
        assert p !in d && c in Get(g.children, p);
        assert c in g.parents && p in g.parents[c];
        assert c !in d;
      }
    }
  }
}
