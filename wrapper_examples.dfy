/**
 * Concrete calls of shifted functions, run through `Wrapper.Invoke` on a
 * handler stack: the plain call of tests/test_simple_funcs.py and the call
 * under a bumped graph handler of tests/test_simple_graph.py.
 */
module WrapperExamples {
  import opened Python
  import opened Keys
  import opened GraphHandler
  import opened Context
  import opened Wrapper

  /** `f(a, b)` of tests/test_simple_funcs.py:80-82: `return a + b`. */
  const Sum: Func<int> := Func(0, "tests.test_simple_funcs", "f", [Param("a", Empty), Param("b", Empty)])

  /** `f(x)` of tests/test_simple_graph.py:169-171: `return x`. */
  const Ident: Func<int> := Func(1, "tests.test_simple_graph", "f", [Param("x", Empty)])

  /** `g(x, y)` of tests/test_simple_graph.py:173-175: `return f(x) + f(y)`. */
  const Pair: Func<int> := Func(2, "tests.test_simple_graph", "g", [Param("x", Empty), Param("y", Empty)])

  /** The bodies of the bump test's `f` and `g`. */
  const GraphProgram: Program := map[Ident := Arg(0), Pair := Add(Call(Ident, [Arg(0)]), Call(Ident, [Arg(1)]))]

  /** All three functions are decorated without error. */
  lemma ExamplesShift(f: Func<int>)
    requires f == Sum || f == Ident || f == Pair
    ensures Shift(f).Ok? && Shift(f).value.func == f
  {
    var fields := FieldNames(KeyType(f));
    LetterName('f');
    LetterName('g');
    LetterName('a');
    LetterName('b');
    LetterName('x');
    LetterName('y');
    FuncFieldName();
    if f == Sum {
      assert fields == ["a", "b", FuncField];
    } else if f == Ident {
      assert fields == ["x", FuncField];
    } else {
      assert fields == ["x", "y", FuncField];
    }
    assert NamedTupleAccepts(f.name, fields);
  }

  /** The key of a call that passes every parameter positionally. */
  lemma FullKey(f: Func<int>, vals: seq<int>)
    requires Shift(f).Ok? && |vals| == |f.params|
    ensures Bind(f.params, vals, map[]) == Ok(vals)
    ensures KeyOf(Shift(f).value, vals) == CallKey(Lift(vals), f)
  {
    BindPositional(f.params, vals);
    var kt := Shift(f).value.keyType;
    assert Defaults(kt.func.params)[|vals|..] == [];
    assert Lift(vals) + [] == Lift(vals);
  }

  /**
   * tests/test_simple_funcs.py:80-89: under a handler that never hits,
   * `f(1, 2)` returns 3, after asking `__contains__` once and storing 3
   * under the key once, without `__getitem__`. A `NullHandler` pushed with
   * `Context` stands in for the test's mock.
   */
  method NullCallExample() returns (o: Outcome<int>, ghost trace: seq<Request>)
    ensures o == Success(3)
    ensures trace == [Contains(CallKey([Val(1), Val(2)], Sum)), RunBody, SetItem(CallKey([Val(1), Val(2)], Sum), Value(3))]
  {
    var s := new HandlerStack();
    var n := new NullHandler();
    var ctx := new Context(Null(n));
    var entered := ctx.Enter(s);
    ExamplesShift(Sum);
    FullKey(Sum, [1, 2]);
    assert Lift([1, 2]) == [Val(1), Val(2)];
    ghost var a;
    o, trace, a := Invoke(s, map[Sum := Add(Arg(0), Arg(1))], Shift(Sum).value, [1, 2], map[], 1);
  }

  /**
   * The body of `g` on (1, 2), answered from a cache that holds `f(1) = 10`
   * and `f(2) = 2`, adds up to 12.
   */
  lemma PairBodyKnown(cache: map<Key, Entry>)
    requires CallKey([Val(1)], Ident) in cache && cache[CallKey([Val(1)], Ident)] == Value(10)
    requires CallKey([Val(2)], Ident) in cache && cache[CallKey([Val(2)], Ident)] == Value(2)
    ensures Known(GraphProgram, GraphProgram[Pair], [1, 2], 1, cache) == Some(Ok(12))
  {
    ExamplesShift(Ident);
    FullKey(Ident, [1]);
    FullKey(Ident, [2]);
    assert Lift([1]) == [Val(1)];
    assert Lift([2]) == [Val(2)];
    assert KnownCall(GraphProgram, Ident, [1], 1, cache) == Some(Ok(10));
    assert KnownCall(GraphProgram, Ident, [2], 1, cache) == Some(Ok(2));
    assert KnownAll(GraphProgram, [Arg(0)], [1, 2], 1, cache) == Some(Ok([1]));
    assert KnownAll(GraphProgram, [Arg(1)], [1, 2], 1, cache) == Some(Ok([2]));
  }

  /**
   * tests/test_simple_graph.py:186-195: under the handler `bump({f(1): 10})`
   * returns (whose attributes `GraphExamples.BumpExample` derives), `g(1, 2)`
   * is 12: `g` itself is not cached, so its body runs, and both calls of `f`
   * are answered from the cache, `f(1)` with the bumped value. The result is
   * then cached under `g(1, 2)`.
   */
  method BumpedCallExample() returns (o: Outcome<int>, bumped: GraphCallHandler<Key, Entry>)
    ensures o == Success(12)
    ensures CallKey([Val(1), Val(2)], Pair) in bumped.retvals
    ensures bumped.retvals[CallKey([Val(1), Val(2)], Pair)] == Value(12)
  {
    var s := new HandlerStack();
    bumped := new GraphCallHandler<Key, Entry>();
    var f1, f2, f3 := CallKey([Val(1)], Ident), CallKey([Val(2)], Ident), CallKey([Val(3)], Ident);
    bumped.parents := map[f2 := {}, f3 := {}];
    bumped.retvals := map[f2 := Value(2), f3 := Value(3), f1 := Value(10)];
    assert bumped.Valid();
    var ctx := new Context(Graph(bumped));
    var entered := ctx.Enter(s);
    PairBodyKnown(bumped.retvals);
    o := CallPair(s, bumped);
  }

  /** `g(1, 2)` under a graph handler that misses on it and knows its body's value. */
  method CallPair(s: HandlerStack, h: GraphCallHandler<Key, Entry>) returns (o: Outcome<int>)
    requires s.handlers != [] && s.handlers[|s.handlers| - 1] == Graph(h) && h.Valid()
    requires CallKey([Val(1), Val(2)], Pair) !in h.retvals
    requires Known(GraphProgram, GraphProgram[Pair], [1, 2], 1, h.retvals) == Some(Ok(12))
    modifies h
    ensures o == Success(12)
    ensures CallKey([Val(1), Val(2)], Pair) in h.retvals && h.retvals[CallKey([Val(1), Val(2)], Pair)] == Value(12)
  {
    ExamplesShift(Pair);
    FullKey(Pair, [1, 2]);
    assert Lift([1, 2]) == [Val(1), Val(2)];
    assert ActiveCache(s) == h.retvals;
    ghost var trace, a;
    o, trace, a := Invoke(s, GraphProgram, Shift(Pair).value, [1, 2], map[], 2);
  }
}
