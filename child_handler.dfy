/**
 * `ChildCallHandler` (tests/test_simple_children.py:15-39): a handler that
 * records, for every call, the set of calls it made. The bottom of its stack
 * is a root sentinel `None` standing for "no call running", so top-level
 * calls become children of `None`. It never answers from a cache.
 *
 * `children` is a plain `dict` here (not a `defaultdict`), so reading the
 * entry of a key that was never pushed would raise `KeyError`; `Valid` says
 * that every key on the stack has an entry, which rules that out.
 */
module ChildHandler {
  import opened Python
  import GraphSpec

  /** The handler's two attributes as one value. */
  datatype Tree<K> = Tree(stack: seq<Option<K>>, children: map<Option<K>, set<K>>)

  /** `__init__`: the root sentinel on the stack, with no children yet. */
  function Initial<K>(): Tree<K>
  {
    Tree([None], map[None := {}])
  }

  /**
   * `__contains__`: add `key` to the child set of the running call, push it
   * and give it a fresh, empty child set (replacing any earlier one); the
   * answer is always `False`. `stack[-1]` on an empty stack raises
   * `IndexError`, a top without an entry raises `KeyError`; both happen
   * before anything is changed.
   */
  function Test<K>(t: Tree<K>, key: K): Result<Tree<K>>
  {
    if t.stack == [] then Err(IndexError)
    else
      var top := t.stack[|t.stack| - 1];
      if top !in t.children then Err(KeyError)
      else
        var added := t.children[top := t.children[top] + {key}];
        Ok(Tree(t.stack + [Some(key)], added[Some(key) := {}]))
  }

  /** `__setitem__`: pop the stack, ignoring the value; `IndexError` when it is empty. */
  function Pop<K>(t: Tree<K>): Result<Tree<K>>
  {
    if t.stack == [] then Err(IndexError) else Ok(t.(stack := t.stack[..|t.stack| - 1]))
  }

  /** Every call on the stack, the root included, has a child set. */
  ghost predicate Valid<K>(t: Tree<K>)
  {
    forall i :: 0 <= i < |t.stack| ==> t.stack[i] in t.children
  }

  /** What `__contains__` does on a running call, and that it only fails on an empty stack. */
  lemma TestEffect<K>(t: Tree<K>, key: K)
    requires Valid(t)
    ensures Test(t, key).Err? <==> t.stack == []
    ensures Test(t, key).Err? ==> Test(t, key).kind == IndexError
    ensures Test(t, key).Ok? ==>
      var top := t.stack[|t.stack| - 1];
      var r := Test(t, key).value;
      && r.stack == t.stack + [Some(key)]
      && r.children.Keys == t.children.Keys + {Some(key)}
      && r.children[Some(key)] == {}
      && (top != Some(key) ==> r.children[top] == t.children[top] + {key})
      && (forall k :: k in t.children && k != top && k != Some(key) ==> r.children[k] == t.children[k])
  {
    if t.stack != [] {
      assert t.stack[|t.stack| - 1] in t.children;
    }
  }

  lemma {:induction false} TestKeepsValid<K>(t: Tree<K>, key: K)
    requires Valid(t) && Test(t, key).Ok?
    ensures Valid(Test(t, key).value)
  {
    var r := Test(t, key).value;
    forall i | 0 <= i < |r.stack| ensures r.stack[i] in r.children {
      if i < |t.stack| {
        assert r.stack[i] == t.stack[i];
      }
    }
  }

  lemma PopKeepsValid<K>(t: Tree<K>)
    requires Valid(t)
    ensures Pop(t).Ok? <==> t.stack != []
    ensures Pop(t).Ok? ==> Valid(Pop(t).value) && Pop(t).value.children == t.children
  {
  }

  /** A sequence of `__contains__` / `__setitem__` calls; a call that raises leaves the state as it was. */
  function Run<K, V>(t: Tree<K>, ops: seq<GraphSpec.Op<K, V>>): Tree<K>
    decreases |ops|
  {
    if ops == [] then t
    else
      var r := match ops[0]
        case Call(k) => Test(t, k)
        case Return(_, _) => Pop(t);
      Run(if r.Ok? then r.value else t, ops[1..])
  }

  /** No sequence of calls can break `Valid`, so `__contains__` never raises `KeyError`. */
  lemma {:induction false} RunKeepsValid<K, V>(t: Tree<K>, ops: seq<GraphSpec.Op<K, V>>)
    requires Valid(t)
    ensures Valid(Run(t, ops))
    decreases |ops|
  {
    if ops != [] {
      match ops[0]
      case Call(k) =>
        if Test(t, k).Ok? {
          TestKeepsValid(t, k);
        }
        RunKeepsValid(if Test(t, k).Ok? then Test(t, k).value else t, ops[1..]);
      case Return(_, _) =>
        RunKeepsValid(if Pop(t).Ok? then Pop(t).value else t, ops[1..]);
    }
  }

  /**
   * The repository's test (tests/test_simple_children.py:56-65): `g` calls
   * `f` once inside a context; `g` is the child of the root, `f` the child
   * of `g`, and `f` has no children of its own.
   */
  lemma {:induction false} NestedCallExample<K, V>(g: K, f: K, fv: V, gv: V)
    requires g != f
    ensures var t := Run(Initial(), [GraphSpec.Call(g), GraphSpec.Call(f), GraphSpec.Return(f, fv), GraphSpec.Return(g, gv)]);
      && t.stack == [None]
      && t.children == map[None := {g}, Some(g) := {f}, Some(f) := {}]
  {
    var t0: Tree<K> := Initial();
    var t1 := Test(t0, g).value;
    assert t1.stack == [None, Some(g)];
    assert t1.children == map[None := {g}, Some(g) := {}] by {
      assert {} + {g} == {g};
    }
    var t2 := Test(t1, f).value;
    assert t2.stack == [None, Some(g), Some(f)];
    assert t2.children == map[None := {g}, Some(g) := {f}, Some(f) := {}] by {
      assert {} + {f} == {f};
    }
    var t3 := Pop(t2).value;
    assert t3.stack == [None, Some(g)];
    var t4 := Pop(t3).value;
    assert t4.stack == [None];
    var ops := [GraphSpec.Call(g), GraphSpec.Call(f), GraphSpec.Return(f, fv), GraphSpec.Return(g, gv)];
    assert Run(t0, ops) == Run(t1, ops[1..]);
    assert Run(t1, ops[1..]) == Run(t2, ops[2..]);
    assert Run(t2, ops[2..]) == Run(t3, ops[3..]);
    assert Run(t3, ops[3..]) == Run(t4, ops[4..]);
  }

  /** The handler itself: its methods are proved against `Test` and `Pop`. */
  class ChildCallHandler<K(==), V> {
    var stack: seq<Option<K>>
    var children: map<Option<K>, set<K>>

    function Model(): Tree<K>
      reads this
    {
      Tree(stack, children)
    }

    constructor ()
      ensures Model() == Initial()
    {
      stack := [None];
      children := map[None := {}];
    }

    /** `__contains__`: always `False` when it returns. */
    method Contains(key: K) returns (r: Result<bool>)
      modifies this
      ensures Test(old(Model()), key).Ok? ==> r == Ok(false) && Model() == Test(old(Model()), key).value
      ensures Test(old(Model()), key).Err? ==> r == Err(Test(old(Model()), key).kind) && Model() == old(Model())
    {
      if stack == [] {
        return Err(IndexError);
      }
      var top := stack[|stack| - 1];
      if top !in children {
        return Err(KeyError);
      }
      children := children[top := children[top] + {key}];
      stack := stack + [Some(key)];
      children := children[Some(key) := {}];
      r := Ok(false);
    }

    /** `__getitem__`: never answers. */
    method GetItem(key: K) returns (r: Result<V>)
      ensures r == Err(NotImplementedError)
    {
      r := Err(NotImplementedError);
    }

    /** `__setitem__`: pops the stack and drops the value. */
    method SetItem(key: K, value: V) returns (r: Result<()>)
      modifies this
      ensures Pop(old(Model())).Ok? ==> r == Ok(()) && Model() == Pop(old(Model())).value
      ensures Pop(old(Model())).Err? ==> r == Err(IndexError) && Model() == old(Model())
    {
      if stack == [] {
        return Err(IndexError);
      }
      stack := stack[..|stack| - 1];
      r := Ok(());
    }
  }
}
