/**
 * The handler side of the wrapper (src/snake/shifter/context.py): the
 * `NullHandler` that answers nothing, the module-level stack `_handlers`
 * whose last element is the active handler, and the `Context` manager that
 * pushes a handler on entry and pops it on exit.
 *
 * The handler protocol (`__contains__`, `__getitem__`, `__setitem__`) is
 * implemented by the three handler classes of the repository's tests and by
 * `NullHandler`; `Handler` is the closed sum of them, and `Test`, `Fetch`
 * and `Store` send one protocol call to whichever handler it holds. A
 * handler call that raises yields a fresh exception object.
 */
module Context {
  import opened Python
  import opened Keys
  import GraphSpec
  import ChildHandler
  import ParentHandler
  import opened GraphHandler

  /** The call keys of the modelled functions: their arguments are Python integers. */
  type Key = CallKey<int>

  /** `NullHandler`: caches nothing and records nothing. It has no attributes. */
  class NullHandler {
    constructor ()
    {
    }

    /** `__contains__`: always `False`. */
    method Contains(key: Key) returns (r: bool)
      ensures !r
    {
      r := false;
    }

    /** `__getitem__`: always raises `NotImplementedError`. */
    method GetItem(key: Key) returns (r: Result<Entry>)
      ensures r == Err(NotImplementedError)
    {
      r := Err(NotImplementedError);
    }

    /** `__setitem__`: accepts the value and drops it. */
    method SetItem(key: Key, value: Entry) returns (r: Result<()>)
      ensures r == Ok(())
    {
      r := Ok(());
    }
  }

  /** A handler object: one of the four classes that implement the protocol. */
  datatype Handler =
    | Null(none: NullHandler)
    | Graph(graph: GraphCallHandler<Key, Entry>)
    | Children(children: ChildHandler.ChildCallHandler<Key, Entry>)
    | Parents(parents: ParentHandler.ParentCallHandler<Key, Entry>)

  /** The objects whose attributes the handler's protocol calls may update. */
  function Objs(h: Handler): set<object>
  {
    match h
    case Null(_) => {}
    case Graph(g) => {g}
    case Children(c) => {c}
    case Parents(p) => {p}
  }

  /** A failure carrying a new exception object of class `kind`. */
  method Raise<T>(kind: ErrorKind) returns (o: Outcome<T>)
    ensures o.Failure? && fresh(o.error) && o.error.kind == kind
  {
    var e := new PyError(kind);
    o := Failure(e);
  }

  /**
   * `key in handler`. The graph handler answers from its cache; the other
   * three always answer `False`. The children handler raises when its stack
   * is empty or its top has no child set, and then changes nothing.
   */
  method Test(h: Handler, key: Key) returns (r: Outcome<bool>)
    modifies Objs(h)
    ensures h.Null? ==> r == Success(false)
    ensures h.Graph? ==>
      && r.Success?
      && (h.graph.Model(), r.value) == GraphSpec.Test(old(h.graph.Model()), key)
      && (old(h.graph.Valid()) ==> h.graph.Valid())
    ensures h.Children? ==>
      var t := ChildHandler.Test(old(h.children.Model()), key);
      && (t.Ok? ==> r == Success(false) && h.children.Model() == t.value)
      && (t.Err? ==> r.Failure? && fresh(r.error) && r.error.kind == t.kind && h.children.Model() == old(h.children.Model()))
    ensures h.Parents? ==>
      r == Success(false) && h.parents.Model() == ParentHandler.Test(old(h.parents.Model()), key)
  {
    match h
    case Null(n) =>
      var b := n.Contains(key);
      r := Success(b);
    case Graph(g) =>
      var b := g.Contains(key);
      r := Success(b);
    case Children(c) =>
      var res := c.Contains(key);
      if res.Ok? {
        r := Success(res.value);
      } else {
        r := Raise(res.kind);
      }
    case Parents(p) =>
      var res := p.Contains(key);
      r := Success(res.value);
  }

  /**
   * `handler[key]`: the graph handler's cached entry (or `KeyError`); the
   * other three raise `NotImplementedError`. Nothing is changed.
   */
  method Fetch(h: Handler, key: Key) returns (r: Outcome<Entry>)
    ensures h.Graph? ==> (r.Success? <==> key in h.graph.retvals)
    ensures h.Graph? && r.Success? ==> r.value == h.graph.retvals[key]
    ensures h.Graph? && r.Failure? ==> fresh(r.error) && r.error.kind == KeyError
    ensures !h.Graph? ==> r.Failure? && fresh(r.error) && r.error.kind == NotImplementedError
  {
    var res: Result<Entry>;
    match h {
      case Null(n) =>
        res := n.GetItem(key);
      case Graph(g) =>
        res := g.GetItem(key);
      case Children(c) =>
        res := c.GetItem(key);
      case Parents(p) =>
        res := p.GetItem(key);
    }
    if res.Ok? {
      r := Success(res.value);
    } else {
      r := Raise(res.kind);
    }
  }

  /**
   * `handler[key] = entry`. The graph handler stores the entry and pops its
   * stack; the children and parents handlers only pop. A pop on an empty
   * stack raises `IndexError` (after the graph handler has stored the entry).
   */
  method Store(h: Handler, key: Key, e: Entry) returns (r: Outcome<()>)
    modifies Objs(h)
    ensures r.Failure? ==> fresh(r.error) && r.error.kind == IndexError
    ensures h.Null? ==> r == Success(())
    ensures h.Graph? ==>
      && (h.graph.Model(), r.Success?) == GraphSpec.Store(old(h.graph.Model()), key, e)
      && (old(h.graph.Valid()) ==> h.graph.Valid())
    ensures h.Children? ==>
      var t := ChildHandler.Pop(old(h.children.Model()));
      && (t.Ok? ==> r.Success? && h.children.Model() == t.value)
      && (t.Err? ==> r.Failure? && h.children.Model() == old(h.children.Model()))
    ensures h.Parents? ==>
      var c := ParentHandler.Pop(old(h.parents.Model()));
      && (c.Ok? ==> r.Success? && h.parents.Model() == c.value)
      && (c.Err? ==> r.Failure? && h.parents.Model() == old(h.parents.Model()))
  {
    var res: Result<()>;
    match h {
      case Null(n) =>
        res := n.SetItem(key, e);
      case Graph(g) =>
        var ok := g.SetItem(key, e);
        res := if ok then Ok(()) else Err(IndexError);
      case Children(c) =>
        res := c.SetItem(key, e);
      case Parents(p) =>
        res := p.SetItem(key, e);
    }
    if res.Ok? {
      r := Success(());
    } else {
      r := Raise(res.kind);
    }
  }

  /** The module-level list `_handlers`; its last element is the active handler. */
  class HandlerStack {
    var handlers: seq<Handler>

    /** `_handlers = [NullHandler()]`. */
    constructor ()
      ensures |handlers| == 1 && handlers[0].Null?
    {
      var n := new NullHandler();
      handlers := [Null(n)];
    }

    /** The active handler, if the stack is not empty. */
    function Active(): Option<Handler>
      reads this
    {
      if handlers == [] then None else Some(handlers[|handlers| - 1])
    }

    /** `get_handler()`: `_handlers[-1]`, which raises `IndexError` on an empty list. */
    method GetHandler() returns (r: Result<Handler>)
      ensures handlers != [] ==> r == Ok(handlers[|handlers| - 1])
      ensures handlers == [] ==> r == Err(IndexError)
    {
      if handlers == [] {
        r := Err(IndexError);
      } else {
        r := Ok(handlers[|handlers| - 1]);
      }
    }
  }

  /**
   * Names the class body of `Context` binds (src/snake/shifter/context.py:4-19):
   * the three methods modelled below as the constructor, `Enter` and `Exit`,
   * with the docstring and module entries and the usual `__dict__` and
   * `__weakref__` descriptors. The set is not an exhaustive listing of the
   * class dictionary for every Python version (newer versions add entries
   * such as `__firstlineno__`); what matters is that neither the body nor
   * the base `object` binds `_handlers`, which is the module global below.
   */
  const ContextClassAttributes: set<string> :=
    {"__module__", "__doc__", "__init__", "__enter__", "__exit__", "__dict__", "__weakref__"}

  /** `Context(handler)`: a context manager holding one handler. */
  class Context {
    const handler: Handler

    constructor (handler: Handler)
      ensures this.handler == handler
    {
      this.handler := handler;
    }

    /** `__enter__`: append the handler to `_handlers` and return that same handler. */
    method Enter(s: HandlerStack) returns (r: Handler)
      modifies s
      ensures s.handlers == old(s.handlers) + [handler]
      ensures r == handler
    {
      s.handlers := s.handlers + [handler];
      r := handler;
    }

    /**
     * `__exit__`: pop the last element of `_handlers`, whatever exception
     * (if any) is leaving the block; `None` is returned, so that exception
     * is not suppressed. An empty list raises `IndexError`.
     */
    method Exit(s: HandlerStack, exc: Option<PyError>) returns (r: Result<()>)
      modifies s
      ensures old(s.handlers) != [] ==> r == Ok(()) && s.handlers == old(s.handlers)[..|old(s.handlers)| - 1]
      ensures old(s.handlers) == [] ==> r == Err(IndexError) && s.handlers == old(s.handlers)
    {
      if s.handlers == [] {
        return Err(IndexError);
      }
      s.handlers := s.handlers[..|s.handlers| - 1];
      r := Ok(());
    }
  }

  /**
   * tests/test_context.py:20-27: inside `with Context(handler)` the active
   * handler is `handler`; after the block it is the previous one again (the
   * bottom `NullHandler`), which is not `handler`.
   */
  method PushExample() returns (handler: Handler, inside: Result<Handler>, after: Result<Handler>)
    ensures inside == Ok(handler)
    ensures after.Ok? && after.value != handler && after.value.Null?
  {
    var s := new HandlerStack();
    var n := new NullHandler();
    handler := Null(n);
    var ctx := new Context(handler);
    var entered := ctx.Enter(s);
    inside := s.GetHandler();
    var exited := ctx.Exit(s, None);
    after := s.GetHandler();
  }

  // ---------------------------------------------------------------------
  // Nested `with` blocks, as values
  // ---------------------------------------------------------------------

  /** What a `with` statement does to `_handlers`: `__enter__` pushes, `__exit__` pops. */
  datatype StackOp = Push(h: Handler) | Pop

  /** `with Context(handler):` around a sequence of nested `with` blocks. */
  datatype Scope = Scope(handler: Handler, inner: seq<Scope>)

  /** The pushes and pops of a block, in program order. */
  function Ops(sc: Scope): seq<StackOp>
    decreases sc, 1
  {
    [Push(sc.handler)] + OpsAll(sc.inner) + [Pop]
  }

  function OpsAll(scs: seq<Scope>): seq<StackOp>
    decreases scs, 0
  {
    if scs == [] then [] else Ops(scs[0]) + OpsAll(scs[1..])
  }

  /** The stack after `ops`; a pop of an empty stack raises `IndexError`. */
  function Apply(s: seq<Handler>, ops: seq<StackOp>): Result<seq<Handler>>
    decreases |ops|
  {
    if ops == [] then Ok(s)
    else match ops[0]
      case Push(h) => Apply(s + [h], ops[1..])
      case Pop => if s == [] then Err(IndexError) else Apply(s[..|s| - 1], ops[1..])
  }

  /**
   * Every step of `ops`, started on `cur`, finds a stack that still begins
   * with `base`; in particular no pop ever takes an element of `base`.
   */
  ghost predicate KeepsBase(base: seq<Handler>, cur: seq<Handler>, ops: seq<StackOp>)
    decreases |ops|
  {
    && base <= cur
    && (ops != [] ==>
          match ops[0]
          case Push(h) => KeepsBase(base, cur + [h], ops[1..])
          case Pop => |cur| > |base| && KeepsBase(base, cur[..|cur| - 1], ops[1..]))
  }

  lemma {:induction false} ApplyConcat(s: seq<Handler>, a: seq<StackOp>, b: seq<StackOp>)
    ensures Apply(s, a + b) == if Apply(s, a).Ok? then Apply(Apply(s, a).value, b) else Apply(s, a)
    decreases |a|
  {
    if a == [] {
      assert a + b == b;
    } else {
      assert (a + b)[0] == a[0] && (a + b)[1..] == a[1..] + b;
      match a[0]
      case Push(h) => ApplyConcat(s + [h], a[1..], b);
      case Pop => if s != [] { ApplyConcat(s[..|s| - 1], a[1..], b); }
    }
  }

  lemma {:induction false} KeepsConcat(base: seq<Handler>, cur: seq<Handler>, a: seq<StackOp>, b: seq<StackOp>)
    requires KeepsBase(base, cur, a) && Apply(cur, a).Ok? && KeepsBase(base, Apply(cur, a).value, b)
    ensures KeepsBase(base, cur, a + b)
    decreases |a|
  {
    if a == [] {
      assert a + b == b;
    } else {
      assert (a + b)[0] == a[0] && (a + b)[1..] == a[1..] + b;
      match a[0]
      case Push(h) => KeepsConcat(base, cur + [h], a[1..], b);
      case Pop => KeepsConcat(base, cur[..|cur| - 1], a[1..], b);
    }
  }

  /**
   * A `with` block, however deeply nested, gives the stack back as it found
   * it, and none of its steps disturbs what was below it: started on a
   * stack holding the bottom `NullHandler`, that handler is never popped.
   */
  lemma {:induction false} ScopeBalanced(base: seq<Handler>, s: seq<Handler>, sc: Scope)
    requires base <= s
    ensures Apply(s, Ops(sc)) == Ok(s)
    ensures KeepsBase(base, s, Ops(sc))
    decreases sc, 1
  {
    var pushed := s + [sc.handler];
    ScopesBalanced(base, pushed, sc.inner);
    var tail := OpsAll(sc.inner) + [Pop];
    assert Ops(sc) == [Push(sc.handler)] + tail;
    ApplyConcat(pushed, OpsAll(sc.inner), [Pop]);
    assert Apply(pushed, [Pop]) == Ok(s) by {
      assert pushed[..|pushed| - 1] == s;
    }
    assert KeepsBase(base, pushed, [Pop]) by {
      assert pushed[..|pushed| - 1] == s;
    }
    KeepsConcat(base, pushed, OpsAll(sc.inner), [Pop]);
    assert ([Push(sc.handler)] + tail)[1..] == tail;
  }

  lemma {:induction false} ScopesBalanced(base: seq<Handler>, s: seq<Handler>, scs: seq<Scope>)
    requires base <= s
    ensures Apply(s, OpsAll(scs)) == Ok(s)
    ensures KeepsBase(base, s, OpsAll(scs))
    decreases scs, 0
  {
    if scs != [] {
      ScopeBalanced(base, s, scs[0]);
      ScopesBalanced(base, s, scs[1..]);
      ApplyConcat(s, Ops(scs[0]), OpsAll(scs[1..]));
      KeepsConcat(base, s, Ops(scs[0]), OpsAll(scs[1..]));
    }
  }

  /**
   * The active handler inside a block is the block's handler, before and
   * after each nested block it runs.
   */
  lemma InnerActive(s: seq<Handler>, sc: Scope, k: nat)
    requires k <= |sc.inner|
    ensures Apply(s, [Push(sc.handler)] + OpsAll(sc.inner[..k])) == Ok(s + [sc.handler])
  {
    ApplyConcat(s, [Push(sc.handler)], OpsAll(sc.inner[..k]));
    assert Apply(s, [Push(sc.handler)]) == Ok(s + [sc.handler]) by {
      assert [Push(sc.handler)][1..] == [];
    }
    ScopesBalanced(s + [sc.handler], s + [sc.handler], sc.inner[..k]);
  }
}
