/**
 * The states the repository's graph tests expect (tests/test_simple_graph.py),
 * derived from the value-level model of `GraphCallHandler`. The functions
 * under test are `f` and `g` with `g` calling `f`; their call keys are
 * distinct values of any type.
 */
module GraphExamples {
  import opened GraphSpec

  lemma {:induction false} RunConcat<K, V>(g: Graph<K, V>, a: seq<Op<K, V>>, b: seq<Op<K, V>>)
    ensures Run(g, a + b) == Run(Run(g, a), b)
    decreases |a|
  {
    if a != [] {
      assert (a + b)[0] == a[0] && (a + b)[1..] == a[1..] + b;
      RunConcat(match a[0] case Call(k) => Test(g, k).0 case Return(k, v) => Store(g, k, v).0, a[1..], b);
    } else {
      assert a + b == b;
    }
  }

  /** The state after one operation. */
  function Apply<K, V>(g: Graph<K, V>, op: Op<K, V>): Graph<K, V>
  {
    match op
    case Call(k) => Test(g, k).0
    case Return(k, v) => Store(g, k, v).0
  }

  /** One unfolding of `Run`. */
  lemma RunCons<K, V>(g: Graph<K, V>, ops: seq<Op<K, V>>)
    requires ops != []
    ensures Run(g, ops) == Run(Apply(g, ops[0]), ops[1..])
  {
    match ops[0] {
      case Call(_) =>
      case Return(_, _) =>
    }
  }

  /** `g(a, b)` with `g` calling `f(a, b)`, on a handler that has cached neither. */
  function FirstCall<K>(g: K, f: K): seq<Op<K, int>>
  {
    [Call(g), Call(f), Return(f, 3), Return(g, 3)]
  }

  /** The keys of the bump test: `g(1, 2)`, `g(1, 3)`, `f(1)`, `f(2)` and `f(3)` are five different calls. */
  ghost predicate FiveKeys(g12: int, g13: int, f1: int, f2: int, f3: int)
  {
    && g12 != g13 && g12 != f1 && g12 != f2 && g12 != f3
    && g13 != f1 && g13 != f2 && g13 != f3
    && f1 != f2 && f1 != f3 && f2 != f3
  }

  /** A call below a running call that misses the cache: one edge on each side, then a push. */
  lemma CallMiss<K, V>(g: Graph<K, V>, key: K, top: K, ps: set<K>, cs: set<K>)
    requires g.stack != [] && g.stack[|g.stack| - 1] == top && key !in g.retvals
    requires ps == Get(g.parents, key) + {top} && cs == Get(g.children, top) + {key}
    ensures Test(g, key) == (Graph(g.stack + [key], g.parents[key := ps], g.children[top := cs], g.retvals), false)
  {
  }

  /** A call below a running call that hits the cache: the edges are recorded, nothing is pushed. */
  lemma CallHit<K, V>(g: Graph<K, V>, key: K, top: K, ps: set<K>, cs: set<K>)
    requires g.stack != [] && g.stack[|g.stack| - 1] == top && key in g.retvals
    requires ps == Get(g.parents, key) + {top} && cs == Get(g.children, top) + {key}
    ensures Test(g, key) == (Graph(g.stack, g.parents[key := ps], g.children[top := cs], g.retvals), true)
  {
  }

  /** A top-level call that misses the cache records no edge. */
  lemma CallOuter<K, V>(g: Graph<K, V>, key: K)
    requires g.stack == [] && key !in g.retvals
    ensures Test(g, key) == (g.(stack := [key]), false)
  {
    assert g.stack + [key] == [key];
  }

  lemma Returned<K, V>(g: Graph<K, V>, key: K, v: V)
    requires g.stack != []
    ensures Store(g, key, v) == (g.(stack := g.stack[..|g.stack| - 1], retvals := g.retvals[key := v]), true)
  {
  }

  lemma {:induction false} RunFour<K, V>(g: Graph<K, V>, ops: seq<Op<K, V>>, s1: Graph<K, V>, s2: Graph<K, V>,
                                         s3: Graph<K, V>, s4: Graph<K, V>)
    requires |ops| == 4
    requires s1 == Apply(g, ops[0]) && s2 == Apply(s1, ops[1]) && s3 == Apply(s2, ops[2]) && s4 == Apply(s3, ops[3])
    ensures Run(g, ops) == s4
  {
    RunCons(g, ops);
    RunCons(s1, ops[1..]);
    RunCons(s2, ops[2..]);
    RunCons(s3, ops[3..]);
    assert ops[1..][1..] == ops[2..] && ops[2..][1..] == ops[3..] && ops[3..][1..] == [];
  }

  /** The state after the first `g(1, 2)`: one edge each way and both results cached. */
  lemma FirstCallState(g: int, f: int)
    requires g != f
    ensures Run(Initial(), FirstCall(g, f)) == Graph([], map[f := {g}], map[g := {f}], map[f := 3, g := 3])
  {
    var h0: Graph<int, int> := Initial();
    CallOuter(h0, g);
    var h1 := h0.(stack := [g]);
    assert Get(h1.parents, f) + {g} == {g} && Get(h1.children, g) + {f} == {f};
    CallMiss(h1, f, g, {g}, {f});
    var h2 := Graph([g, f], map[f := {g}], map[g := {f}], map[]);
    Returned(h2, f, 3);
    var h3 := h2.(stack := [g], retvals := map[f := 3]);
    Returned(h3, g, 3);
    RunFour(h0, FirstCall(g, f), h1, h2, h3, Graph([], map[f := {g}], map[g := {f}], map[f := 3, g := 3]));
  }

  /**
   * tests/test_simple_graph.py:99-115: after `g(1, 2)` twice, `g` has no
   * parents and `f` has `g`; `g`'s only child is `f`, `f` has none; both
   * results are cached, and the second call was answered from the cache
   * without pushing anything.
   */
  lemma {:induction false} SimpleGraphExample(g: int, f: int)
    requires g != f
    ensures var h1 := Run(Initial(), FirstCall(g, f));
      && Test(h1, g).1
      && var h := Run(h1, [Call(g)]);
      && h.stack == []
      && Get(h.parents, g) == {} && Get(h.parents, f) == {g}
      && Get(h.children, g) == {f} && Get(h.children, f) == {}
      && h.retvals == map[f := 3, g := 3]
  {
    FirstCallState(g, f);
    var h1 := Graph([], map[f := {g}], map[g := {f}], map[f := 3, g := 3]);
    assert Test(h1, g) == (h1, true);
    RunCons(h1, [Call(g)]);
  }

  /** `g(x, y)` calling `f(x)` and then `f(y)`, none of them cached. */
  function FreshPair<K>(g: K, fx: K, fy: K, x: int, y: int): seq<Op<K, int>>
  {
    [Call(g), Call(fx), Return(fx, x), Call(fy), Return(fy, y), Return(g, x + y)]
  }

  /** `g(1, 3)` once `g(1, 2)` has run: `f(1)` is answered from the cache, `f(3)` is computed. */
  function SecondCall<K>(g13: K, f1: K, f3: K): seq<Op<K, int>>
  {
    [Call(g13), Call(f1)] + [Call(f3), Return(f3, 3)] + [Return(g13, 4)]
  }

  /** The handler of tests/test_simple_graph.py:177-180 after `g(1, 2)` and `g(1, 3)`. */
  function BumpState(g12: int, g13: int, f1: int, f2: int, f3: int): Graph<int, int>
  {
    Graph([],
          map[f1 := {g12, g13}, f2 := {g12}, f3 := {g13}],
          map[g12 := {f1, f2}, g13 := {f1, f3}],
          map[f1 := 1, f2 := 2, g12 := 3, f3 := 3, g13 := 4])
  }

  lemma {:induction false} BumpSetup(g12: int, g13: int, f1: int, f2: int, f3: int)
    requires FiveKeys(g12, g13, f1, f2, f3)
    ensures Run(Initial(), FreshPair(g12, f1, f2, 1, 2) + SecondCall(g13, f1, f3)) == BumpState(g12, g13, f1, f2, f3)
  {
    var h1 := FirstPhase(g12, f1, f2);
    RunConcat(Initial(), FreshPair(g12, f1, f2, 1, 2), SecondCall(g13, f1, f3));
    var h2 := SecondPhase(h1, g12, g13, f1, f2, f3);
    SetupMaps(g12, g13, f1, f2, f3);
  }

  /** The maps built up by the two calls, in the order the updates happen, are those of `BumpState`. */
  lemma SetupMaps(g12: int, g13: int, f1: int, f2: int, f3: int)
    requires FiveKeys(g12, g13, f1, f2, f3)
    ensures map[f1 := {g12}][f2 := {g12}][f1 := {g12, g13}][f3 := {g13}] == BumpState(g12, g13, f1, f2, f3).parents
    ensures map[g12 := {f1}][g12 := {f1, f2}][g13 := {f1}][g13 := {f1, f3}] == BumpState(g12, g13, f1, f2, f3).children
    ensures map[f1 := 1, f2 := 2, g12 := 3][f3 := 3][g13 := 4] == BumpState(g12, g13, f1, f2, f3).retvals
  {
  }

  lemma {:induction false} FirstPhase(g: int, fx: int, fy: int) returns (h: Graph<int, int>)
    requires g != fx && g != fy && fx != fy
    ensures h == Run(Initial(), FreshPair(g, fx, fy, 1, 2))
    ensures h == Graph([], map[fx := {g}][fy := {g}], map[g := {fx}][g := {fx, fy}], map[fx := 1, fy := 2, g := 3])
  {
    var s5 := OpenPair(g, fx, fy);
    Returned(s5, g, 3);
    RunCons(s5, [Return(g, 3)]);
    h := s5.(stack := [], retvals := map[fx := 1, fy := 2, g := 3]);
    assert FreshPair(g, fx, fy, 1, 2) == [Call(g), Call(fx), Return(fx, 1), Call(fy), Return(fy, 2)] + [Return(g, 3)];
    RunConcat(Initial(), [Call(g), Call(fx), Return(fx, 1), Call(fy), Return(fy, 2)], [Return(g, 3)]);
  }

  /** `FreshPair` up to the point where `g` returns. */
  lemma {:induction false} OpenPair(g: int, fx: int, fy: int) returns (s5: Graph<int, int>)
    requires g != fx && g != fy && fx != fy
    ensures s5 == Run(Initial(), [Call(g), Call(fx), Return(fx, 1), Call(fy), Return(fy, 2)])
    ensures s5 == Graph([g], map[fx := {g}][fy := {g}], map[g := {fx}][g := {fx, fy}], map[fx := 1, fy := 2])
  {
    var s3 := OpenFirst(g, fx);
    assert Get(s3.parents, fy) + {g} == {g} && Get(s3.children, g) + {fy} == {fx, fy};
    LeafCall(s3, fy, g, 2, {g}, {fx, fy});
    s5 := Graph([g], map[fx := {g}][fy := {g}], map[g := {fx}][g := {fx, fy}], map[fx := 1, fy := 2]);
    assert [Call(g), Call(fx), Return(fx, 1), Call(fy), Return(fy, 2)] == [Call(g), Call(fx), Return(fx, 1)] + [Call(fy), Return(fy, 2)];
    RunConcat(Initial(), [Call(g), Call(fx), Return(fx, 1)], [Call(fy), Return(fy, 2)]);
  }

  /** `FreshPair` up to the return of its first inner call. */
  lemma {:induction false} OpenFirst(g: int, fx: int) returns (s3: Graph<int, int>)
    requires g != fx
    ensures s3 == Run(Initial(), [Call(g), Call(fx), Return(fx, 1)])
    ensures s3 == Graph([g], map[fx := {g}], map[g := {fx}], map[fx := 1])
  {
    var s0: Graph<int, int> := Initial();
    var s1 := Graph([g], map[], map[], map[]);
    CallOuter(s0, g);
    RunCons(s0, [Call(g)]);
    assert Get(s1.parents, fx) + {g} == {g} && Get(s1.children, g) + {fx} == {fx};
    LeafCall(s1, fx, g, 1, {g}, {fx});
    s3 := Graph([g], map[fx := {g}], map[g := {fx}], map[fx := 1]);
    assert [Call(g), Call(fx), Return(fx, 1)] == [Call(g)] + [Call(fx), Return(fx, 1)];
    RunConcat(s0, [Call(g)], [Call(fx), Return(fx, 1)]);
  }

  /** A call below `top` to a function that calls nothing and is not cached, returning `v`. */
  lemma LeafCall<V>(s: Graph<int, V>, key: int, top: int, v: V, ps: set<int>, cs: set<int>)
    requires s.stack != [] && s.stack[|s.stack| - 1] == top && key !in s.retvals
    requires ps == Get(s.parents, key) + {top} && cs == Get(s.children, top) + {key}
    ensures Run(s, [Call(key), Return(key, v)]) == Graph(s.stack, s.parents[key := ps], s.children[top := cs], s.retvals[key := v])
  {
    CallMiss(s, key, top, ps, cs);
    var s1 := Test(s, key).0;
    Returned(s1, key, v);
    assert (s.stack + [key])[..|s.stack|] == s.stack;
    RunCons(s, [Call(key), Return(key, v)]);
    RunCons(s1, [Return(key, v)]);
  }

  lemma {:induction false} SecondPhase(h1: Graph<int, int>, g12: int, g13: int, f1: int, f2: int, f3: int)
      returns (h: Graph<int, int>)
    requires FiveKeys(g12, g13, f1, f2, f3)
    requires h1 == Graph([], map[f1 := {g12}][f2 := {g12}], map[g12 := {f1}][g12 := {f1, f2}], map[f1 := 1, f2 := 2, g12 := 3])
    ensures h == Run(h1, SecondCall(g13, f1, f3))
    ensures h == Graph([], h1.parents[f1 := {g12, g13}][f3 := {g13}], h1.children[g13 := {f1}][g13 := {f1, f3}],
                       h1.retvals[f3 := 3][g13 := 4])
  {
    var s2 := SecondOpen(h1, g12, g13, f1, f2);
    assert Get(s2.parents, f3) + {g13} == {g13} && Get(s2.children, g13) + {f3} == {f1, f3};
    LeafCall(s2, f3, g13, 3, {g13}, {f1, f3});
    var s4 := Graph([g13], s2.parents[f3 := {g13}], s2.children[g13 := {f1, f3}], s2.retvals[f3 := 3]);
    Returned(s4, g13, 4);
    RunCons(s4, [Return(g13, 4)]);
    h := s4.(stack := [], retvals := s4.retvals[g13 := 4]);
    var P, L, D := [Call(g13), Call(f1)], [Call(f3), Return(f3, 3)], [Return(g13, 4)];
    RunConcat(h1, P, L);
    RunConcat(h1, P + L, D);
  }

  /** The second `g` call up to its cache hit on `f(1)`. */
  lemma {:induction false} SecondOpen(h1: Graph<int, int>, g12: int, g13: int, f1: int, f2: int)
      returns (s2: Graph<int, int>)
    requires g12 != g13 && g13 != f1 && g13 != f2
    requires h1 == Graph([], map[f1 := {g12}][f2 := {g12}], map[g12 := {f1}][g12 := {f1, f2}], map[f1 := 1, f2 := 2, g12 := 3])
    ensures s2 == Run(h1, [Call(g13), Call(f1)])
    ensures s2 == Graph([g13], h1.parents[f1 := {g12, g13}], h1.children[g13 := {f1}], h1.retvals)
  {
    CallOuter(h1, g13);
    var s1 := h1.(stack := [g13]);
    assert Get(s1.parents, f1) + {g13} == {g12, g13} && Get(s1.children, g13) + {f1} == {f1};
    CallHit(s1, f1, g13, {g12, g13}, {f1});
    s2 := Graph([g13], h1.parents[f1 := {g12, g13}], h1.children[g13 := {f1}], h1.retvals);
    RunCons(h1, [Call(g13), Call(f1)]);
    RunCons(s1, [Call(f1)]);
    var ops: seq<Op<int, int>> := [Call(g13), Call(f1)];
    assert ops[1..] == [Call(f1)];
  }

  /** Bumping `f(1)` reaches `f(1)` and both `g` calls, and nothing else. */
  lemma BumpReach(g12: int, g13: int, f1: int, f2: int, f3: int)
    requires FiveKeys(g12, g13, f1, f2, f3)
    ensures Dependents(BumpState(g12, g13, f1, f2, f3).parents, {f1}) == {f1, g12, g13}
  {
    var parents := BumpState(g12, g13, f1, f2, f3).parents;
    var d := Dependents(parents, {f1});
    assert Closed(parents, {f1, g12, g13});
    DependentsLeast(parents, {f1}, {f1, g12, g13});
    assert f1 in d && f1 in parents && parents[f1] <= d;
  }

  /** Stripping the three evicted calls leaves `f(2)` and `f(3)` with no parents. */
  lemma BumpStrip(g12: int, g13: int, f1: int, f2: int, f3: int)
    requires FiveKeys(g12, g13, f1, f2, f3)
    ensures Strip(BumpState(g12, g13, f1, f2, f3).parents, {f1, g12, g13}) == map[f2 := {}, f3 := {}]
  {
    var d := {f1, g12, g13};
    var r := Strip(BumpState(g12, g13, f1, f2, f3).parents, d);
    assert r.Keys == {f2, f3};
    assert r[f2] == {g12} - d && r[f3] == {g13} - d;
    assert {g12} - d == {} && {g13} - d == {};
  }

  /**
   * tests/test_simple_graph.py:184-193: bumping `f(1)` to 10 evicts `f(1)`
   * and both `g` calls that depend on it; `f(2)` and `f(3)` keep their
   * values and lose their (evicted) parents, no children are left, and the
   * override is installed.
   */
  lemma {:induction false} BumpExample(g12: int, g13: int, f1: int, f2: int, f3: int)
    requires FiveKeys(g12, g13, f1, f2, f3)
    ensures var b := Bump(BumpState(g12, g13, f1, f2, f3), map[f1 := 10]);
      && b.stack == []
      && b.parents == map[f2 := {}, f3 := {}]
      && b.children == map[]
      && b.retvals == map[f2 := 2, f3 := 3, f1 := 10]
  {
    BumpReach(g12, g13, f1, f2, f3);
    assert map[f1 := 10].Keys == {f1};
    BumpStrip(g12, g13, f1, f2, f3);
    BumpDrop(g12, g13, f1, f2, f3);
  }

  /** The evicted calls leave no children, and the cache keeps `f(2)` and `f(3)` beside the override. */
  lemma BumpDrop(g12: int, g13: int, f1: int, f2: int, f3: int)
    requires FiveKeys(g12, g13, f1, f2, f3)
    ensures BumpState(g12, g13, f1, f2, f3).children - {f1, g12, g13} == map[]
    ensures (BumpState(g12, g13, f1, f2, f3).retvals - {f1, g12, g13}) + map[f1 := 10] == map[f2 := 2, f3 := 3, f1 := 10]
  {
    var h := BumpState(g12, g13, f1, f2, f3);
    assert (h.retvals - {f1, g12, g13}).Keys == {f2, f3};
  }
}
