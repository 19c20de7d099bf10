/**
 * `ParentCallHandler` (tests/test_simple_parents.py:22-46): a handler that
 * records, for every call, the calls that made it. `parents` is a
 * `defaultdict(set)`; top-level calls (empty stack) record nothing. It never
 * answers from a cache, so every call is pushed.
 */
module ParentHandler {
  import opened Python
  import GraphSpec

  /** The handler's two attributes as one value. */
  datatype Chain<K> = Chain(stack: seq<K>, parents: map<K, set<K>>)

  /** `__init__`: empty stack, no parents recorded. */
  function Initial<K>(): Chain<K>
  {
    Chain([], map[])
  }

  /**
   * `__contains__`: below a running call, add that call to the parents of
   * `key`; then push `key`. The answer is always `False`.
   */
  function Test<K>(c: Chain<K>, key: K): Chain<K>
  {
    var parents :=
      if c.stack != [] then GraphSpec.AddTo(c.parents, key, c.stack[|c.stack| - 1]) else c.parents;
    Chain(c.stack + [key], parents)
  }

  /** `__setitem__`: pop the stack, ignoring the value; `IndexError` when it is empty. */
  function Pop<K>(c: Chain<K>): Result<Chain<K>>
  {
    if c.stack == [] then Err(IndexError) else Ok(c.(stack := c.stack[..|c.stack| - 1]))
  }

  /** `__contains__` always pushes, and adds exactly the edge from the running call, if any. */
  lemma TestEffect<K>(c: Chain<K>, key: K, k: K, p: K)
    ensures Test(c, key).stack == c.stack + [key]
    ensures p in GraphSpec.Get(Test(c, key).parents, k) <==>
              p in GraphSpec.Get(c.parents, k) || (c.stack != [] && k == key && p == c.stack[|c.stack| - 1])
  {
  }

  /** A sequence of `__contains__` / `__setitem__` calls; a pop that raises leaves the state as it was. */
  function Run<K, V>(c: Chain<K>, ops: seq<GraphSpec.Op<K, V>>): Chain<K>
    decreases |ops|
  {
    if ops == [] then c
    else
      var c1 := match ops[0]
        case Call(k) => Test(c, k)
        case Return(_, _) => if Pop(c).Ok? then Pop(c).value else c;
      Run(c1, ops[1..])
  }

  /**
   * The repository's test (tests/test_simple_parents.py:64-69): `g` calls
   * `f` once; `g` has no parents and `f` has `g`.
   */
  lemma {:induction false} NestedCallExample<K, V>(g: K, f: K, fv: V, gv: V)
    requires g != f
    ensures var c := Run(Initial(), [GraphSpec.Call(g), GraphSpec.Call(f), GraphSpec.Return(f, fv), GraphSpec.Return(g, gv)]);
      && c.stack == []
      && GraphSpec.Get(c.parents, g) == {}
      && GraphSpec.Get(c.parents, f) == {g}
  {
    var c0: Chain<K> := Initial();
    var c1 := Test(c0, g);
    assert c1 == Chain([g], map[]);
    var c2 := Test(c1, f);
    assert c2.stack == [g, f];
    assert c2.parents == map[f := {g}] by {
      assert GraphSpec.Get(c1.parents, f) + {g} == {g};
    }
    var c3 := Pop(c2).value;
    var c4 := Pop(c3).value;
    assert c4.stack == [] && c4.parents == c2.parents;
    var ops := [GraphSpec.Call(g), GraphSpec.Call(f), GraphSpec.Return(f, fv), GraphSpec.Return(g, gv)];
    assert Run(c0, ops) == Run(c1, ops[1..]);
    assert Run(c1, ops[1..]) == Run(c2, ops[2..]);
    assert Run(c2, ops[2..]) == Run(c3, ops[3..]);
    assert Run(c3, ops[3..]) == Run(c4, ops[4..]);
  }

  /** No `__contains__` in `ops` finds its key already cached by the graph handler. */
  ghost predicate NoHits<K, V>(g: GraphSpec.Graph<K, V>, ops: seq<GraphSpec.Op<K, V>>)
    decreases |ops|
  {
    ops != [] ==>
      (ops[0].Call? ==> ops[0].key !in g.retvals) &&
      NoHits(GraphSpec.Run(g, [ops[0]]), ops[1..])
  }

  /**
   * Cross-check with the graph handler: as long as it answers no call from
   * its cache, `GraphCallHandler` keeps the same stack and the same parent
   * edges as `ParentCallHandler` fed the same calls.
   */
  lemma {:induction false} AgreesWithGraph<K, V>(c: Chain<K>, g: GraphSpec.Graph<K, V>, ops: seq<GraphSpec.Op<K, V>>)
    requires c.stack == g.stack && c.parents == g.parents
    requires NoHits(g, ops)
    ensures Run(c, ops).stack == GraphSpec.Run(g, ops).stack
    ensures Run(c, ops).parents == GraphSpec.Run(g, ops).parents
    decreases |ops|
  {
    if ops != [] {
      var g1 := match ops[0]
        case Call(k) => GraphSpec.Test(g, k).0
        case Return(k, v) => GraphSpec.Store(g, k, v).0;
      var c1 := match ops[0]
        case Call(k) => Test(c, k)
        case Return(_, _) => if Pop(c).Ok? then Pop(c).value else c;
      assert GraphSpec.Run(g, [ops[0]]) == g1 by {
        assert [ops[0]][1..] == [];
      }
      AgreesWithGraph(c1, g1, ops[1..]);
    }
  }

  /** The handler itself: its methods are proved against `Test` and `Pop`. */
  class ParentCallHandler<K(==), V> {
    var stack: seq<K>
    var parents: map<K, set<K>>

    function Model(): Chain<K>
      reads this
    {
      Chain(stack, parents)
    }

    constructor ()
      ensures Model() == Initial()
    {
      stack := [];
      parents := map[];
    }

    /** `__contains__`: always `False`. */
    method Contains(key: K) returns (r: Result<bool>)
      modifies this
      ensures r == Ok(false)
      ensures Model() == Test(old(Model()), key)
    {
      if stack != [] {
        parents := GraphSpec.AddTo(parents, key, stack[|stack| - 1]);
      }
      stack := stack + [key];
      r := Ok(false);
    }

    /** `__getitem__`: never answers. */
    method GetItem(key: K) returns (r: Result<V>)
      ensures r == Err(NotImplementedError)
    {
      r := Err(NotImplementedError);
    }

    /** `__setitem__`: pops the stack and drops the value. */
    method SetItem(key: K, value: V) returns (r: Result<()>)
      modifies this
      ensures Pop(old(Model())).Ok? ==> r == Ok(()) && Model() == Pop(old(Model())).value
      ensures Pop(old(Model())).Err? ==> r == Err(IndexError) && Model() == old(Model())
    {
      if stack == [] {
        return Err(IndexError);
      }
      stack := stack[..|stack| - 1];
      r := Ok(());
    }
  }
}
