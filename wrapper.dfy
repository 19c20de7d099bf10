/**
 * `shift` and the wrapper `_func` it returns (src/snake/shifter/wrapper.py).
 *
 * A shifted function, when called, reads the active handler, binds its
 * arguments to the signature (applying defaults), builds the call key, and
 * then asks the handler: a hit is answered from the handler (re-raising a
 * cached failure), a miss runs the function body and hands the handler the
 * return value or, when the body raised `exc`, the wrapper `Exception(exc)`
 * before re-raising `exc`.
 *
 * The bodies of the shifted functions are written in a small expression
 * language (arguments, integer literals, `+`, calls of shifted functions and
 * `raise`), so that calls nest and a body can fail. A fuel bound stands for
 * the interpreter's recursion limit.
 */
module Wrapper {
  import opened Python
  import opened Keys
  import GraphSpec
  import opened GraphHandler
  import opened Context

  // ---------------------------------------------------------------------
  // `shift` and argument binding
  // ---------------------------------------------------------------------

  /** The wrapper `shift(func)` returns: it calls `func` and exposes `__key__`. */
  datatype Shifted = Shifted(func: Func<int>, keyType: KeyType<int>)

  /**
   * `shift(func)`: the key type is built once, from the function; when
   * `make_key_type` raises `ValueError`, no wrapper is made.
   */
  function Shift(func: Func<int>): (r: Result<Shifted>)
    ensures r.Ok? <==> MakeKeyType(func).Ok?
    ensures r.Ok? ==> r.value.func == func && r.value.keyType.func == func
    ensures r.Err? ==> r.kind == ValueError
  {
    var kt := MakeKeyType(func);
    if kt.Ok? then Ok(Shifted(func, kt.value)) else Err(kt.kind)
  }

  /** The value a parameter not passed positionally receives: its keyword argument, else its default. */
  function Supplied(p: Param<int>, kw: map<string, int>): int
    requires p.name in kw || p.default.Val?
  {
    if p.name in kw then kw[p.name] else p.default.v
  }

  /** `signature.bind(*args, **kwargs)` followed by `apply_defaults()` succeeds. */
  ghost predicate Bindable(params: seq<Param<int>>, pos: seq<int>, kw: map<string, int>)
  {
    && |pos| <= |params|
    && (forall name :: name in kw ==> name in Names(params))
    && (forall i :: 0 <= i < |pos| ==> params[i].name !in kw)
    && (forall i :: |pos| <= i < |params| ==> params[i].name in kw || params[i].default.Val?)
  }

  /**
   * `signature.bind(*args, **kwargs)` then `apply_defaults()`, for a
   * signature of positional-or-keyword parameters: the value of every
   * parameter, in order. Too many positional arguments, an unknown keyword,
   * a parameter given twice or a missing parameter without default raise
   * `TypeError`.
   */
  function Bind(params: seq<Param<int>>, pos: seq<int>, kw: map<string, int>): (r: Result<seq<int>>)
    ensures r.Ok? <==> Bindable(params, pos, kw)
    ensures r.Err? ==> r.kind == TypeError
    ensures r.Ok? ==>
      && |r.value| == |params|
      && r.value[..|pos|] == pos
      && forall i :: |pos| <= i < |params| ==> r.value[i] == Supplied(params[i], kw)
  {
    if |pos| > |params| then Err(TypeError)
    else if exists name :: name in kw && name !in Names(params) then Err(TypeError)
    else if exists i :: 0 <= i < |pos| && params[i].name in kw then Err(TypeError)
    else
      var rest := Fill(params, |pos|, kw);
      if rest.Err? then Err(TypeError) else Ok(pos + rest.value)
  }

  /** The values of the parameters from index `i` on, none of which was passed positionally. */
  function Fill(params: seq<Param<int>>, i: nat, kw: map<string, int>): (r: Result<seq<int>>)
    requires i <= |params|
    ensures r.Ok? <==> forall j :: i <= j < |params| ==> params[j].name in kw || params[j].default.Val?
    ensures r.Ok? ==> |r.value| == |params| - i && forall j :: i <= j < |params| ==> r.value[j - i] == Supplied(params[j], kw)
    decreases |params| - i
  {
    if i == |params| then Ok([])
    else if params[i].name !in kw && params[i].default.Empty? then Err(TypeError)
    else
      var rest := Fill(params, i + 1, kw);
      if rest.Err? then rest else Ok([Supplied(params[i], kw)] + rest.value)
  }

  /** Python requires the parameter names of a signature to be distinct. */
  ghost predicate DistinctNames(params: seq<Param<int>>)
  {
    forall i, j :: 0 <= i < j < |params| ==> params[i].name != params[j].name
  }

  /** A call that passes every parameter positionally binds exactly those values. */
  lemma BindPositional(params: seq<Param<int>>, vals: seq<int>)
    requires |vals| == |params|
    ensures Bind(params, vals, map[]) == Ok(vals)
  {
    assert Bindable(params, vals, map[]);
    var r := Bind(params, vals, map[]);
    assert r.value == r.value[..|vals|];
  }

  /** Two bindings that succeed or fail together and agree on every parameter are the same result. */
  lemma SameBinding(params: seq<Param<int>>, pos: seq<int>, kw: map<string, int>, pos': seq<int>, kw': map<string, int>)
    requires Bindable(params, pos, kw) <==> Bindable(params, pos', kw')
    requires Bindable(params, pos, kw) ==>
      forall i :: 0 <= i < |params| ==> Bind(params, pos, kw).value[i] == Bind(params, pos', kw').value[i]
    ensures Bind(params, pos, kw) == Bind(params, pos', kw')
  {
    var r, r' := Bind(params, pos, kw), Bind(params, pos', kw');
    if r.Ok? {
      assert r.value == r'.value;
    }
  }

  /** Leaving out a defaulted argument binds the same values as passing the default. */
  lemma BindDefault(params: seq<Param<int>>, pos: seq<int>, kw: map<string, int>)
    requires |pos| < |params| && params[|pos|].default.Val? && params[|pos|].name !in kw
    ensures Bind(params, pos, kw) == Bind(params, pos + [params[|pos|].default.v], kw)
  {
    var pos' := pos + [params[|pos|].default.v];
    if Bindable(params, pos, kw) {
      forall i | 0 <= i < |pos'| ensures params[i].name !in kw {
        if i < |pos| {
          assert params[i].name !in kw;
        }
      }
      assert Bindable(params, pos', kw);
    }
    if Bindable(params, pos', kw) {
      forall i | |pos| <= i < |params| ensures params[i].name in kw || params[i].default.Val? {
        if i > |pos| {
          assert |pos'| <= i;
        }
      }
      assert Bindable(params, pos, kw);
      var r, r' := Bind(params, pos, kw).value, Bind(params, pos', kw).value;
      forall i | 0 <= i < |params| ensures r[i] == r'[i] {
        if i < |pos| {
          assert r[i] == r[..|pos|][i] && r'[i] == r'[..|pos'|][i] && pos'[i] == pos[i];
        } else if i == |pos| {
          assert r'[i] == r'[..|pos'|][i];
        }
      }
    }
    SameBinding(params, pos, kw, pos', kw);
  }

  /** Moving the next parameter from the keywords to the positions keeps the call bindable, and back. */
  lemma BindableKeyword(params: seq<Param<int>>, pos: seq<int>, kw: map<string, int>)
    requires DistinctNames(params)
    requires |pos| < |params| && params[|pos|].name in kw
    ensures var name := params[|pos|].name;
      Bindable(params, pos, kw) <==> Bindable(params, pos + [kw[name]], kw - {name})
  {
    var name := params[|pos|].name;
    var pos', kw' := pos + [kw[name]], kw - {name};
    assert Names(params)[|pos|] == name;
    if Bindable(params, pos, kw) {
      forall i | 0 <= i < |pos'| ensures params[i].name !in kw' {
        if i < |pos| {
          assert params[i].name !in kw;
        }
      }
      forall i | |pos'| <= i < |params| ensures params[i].name in kw' || params[i].default.Val? {
        assert params[i].name != name;
      }
      assert Bindable(params, pos', kw');
    }
    if Bindable(params, pos', kw') {
      forall n | n in kw ensures n in Names(params) {
        if n != name {
          assert n in kw';
        }
      }
      forall i | 0 <= i < |pos| ensures params[i].name !in kw {
        assert params[i].name != name && params[i].name !in kw';
      }
      forall i | |pos| <= i < |params| ensures params[i].name in kw || params[i].default.Val? {
        if i > |pos| {
          assert |pos'| <= i;
        }
      }
      assert Bindable(params, pos, kw);
    }
  }

  /** Passing the next parameter by keyword binds the same values as passing it positionally. */
  lemma BindKeyword(params: seq<Param<int>>, pos: seq<int>, kw: map<string, int>)
    requires DistinctNames(params)
    requires |pos| < |params| && params[|pos|].name in kw
    ensures Bind(params, pos, kw) == Bind(params, pos + [kw[params[|pos|].name]], kw - {params[|pos|].name})
  {
    var name := params[|pos|].name;
    var pos', kw' := pos + [kw[name]], kw - {name};
    BindableKeyword(params, pos, kw);
    if Bindable(params, pos, kw) {
      var r, r' := Bind(params, pos, kw).value, Bind(params, pos', kw').value;
      forall i | 0 <= i < |params| ensures r[i] == r'[i] {
        if i < |pos| {
          assert r[i] == r[..|pos|][i] && r'[i] == r'[..|pos'|][i] && pos'[i] == pos[i];
        } else if i == |pos| {
          assert r'[i] == r'[..|pos'|][i];
        } else {
          assert params[i].name != name;
        }
      }
    }
    SameBinding(params, pos, kw, pos', kw');
  }

  /** The parameter values as key fields. */
  function Lift(vals: seq<int>): (args: seq<PyArg<int>>)
    ensures |args| == |vals| && forall i :: 0 <= i < |vals| ==> args[i] == Val(vals[i])
  {
    seq(|vals|, i requires 0 <= i < |vals| => Val(vals[i]))
  }

  /** `key_type(*bound.args)`: the key of a call whose parameters are bound to `vals`. */
  function KeyOf(w: Shifted, vals: seq<int>): Key
    requires |vals| <= |w.keyType.func.params|
  {
    New(w.keyType, Lift(vals))
  }

  /**
   * A call that omits a defaulted argument gets the same key as one that
   * passes the default explicitly.
   */
  lemma OmittedDefaultSameKey(w: Shifted, pos: seq<int>, kw: map<string, int>)
    requires Shift(w.func) == Ok(w)
    requires |pos| < |w.func.params| && w.func.params[|pos|].default.Val? && w.func.params[|pos|].name !in kw
    ensures var r := Bind(w.func.params, pos, kw);
      var r' := Bind(w.func.params, pos + [w.func.params[|pos|].default.v], kw);
      r.Ok? <==> r'.Ok?
    ensures var r := Bind(w.func.params, pos, kw);
      var r' := Bind(w.func.params, pos + [w.func.params[|pos|].default.v], kw);
      r.Ok? ==> KeyOf(w, r.value) == KeyOf(w, r'.value)
  {
    BindDefault(w.func.params, pos, kw);
  }

  // ---------------------------------------------------------------------
  // The protocol of one intercepted call
  // ---------------------------------------------------------------------

  /** What `_func` asks of the handler, and when it runs the body. */
  datatype Request = Contains(key: Key) | GetItem(key: Key) | RunBody | SetItem(key: Key, entry: Entry)

  /**
   * The answers `_func` receives: from `key in handler`, from `handler[key]`,
   * from the body, from `handler[key] = ...` and from the second store in the
   * `except` clause. Answers to requests that are not made are ignored.
   */
  datatype Answers = Answers(
    contains: Outcome<bool>,
    fetched: Outcome<Entry>,
    body: Outcome<int>,
    stored: Outcome<()>,
    rescued: Outcome<()>)

  /**
   * src/snake/shifter/wrapper.py:43-55 for a key, given the answers: the
   * requests made, in order, and how the call ends. A hit fetches and
   * returns the entry, re-raising the exception inside an `Exception`
   * wrapper; a miss runs the body and stores its value, and when the body
   * (or that store) raises `exc`, stores `Exception(exc)` and re-raises
   * `exc`, unless that store raises in turn.
   */
  function Protocol(key: Key, a: Answers): (seq<Request>, Outcome<int>)
  {
    match a.contains
    case Failure(e) => ([Contains(key)], Failure(e))
    case Success(hit) =>
      if hit then
        ([Contains(key), GetItem(key)], if a.fetched.Success? then Replay(a.fetched.value) else Failure(a.fetched.error))
      else
        match a.body
        case Success(v) =>
          if a.stored.Success? then ([Contains(key), RunBody, SetItem(key, Value(v))], Success(v))
          else
            var exc := a.stored.error;
            ([Contains(key), RunBody, SetItem(key, Value(v)), SetItem(key, Wrapped(exc))],
             if a.rescued.Failure? then Failure(a.rescued.error) else Failure(exc))
        case Failure(exc) =>
          ([Contains(key), RunBody, SetItem(key, Wrapped(exc))],
           if a.stored.Failure? then Failure(a.stored.error) else Failure(exc))
  }

  /** The last store of a miss was accepted. */
  predicate LastStoreOk(a: Answers)
  {
    if a.body.Success? && a.stored.Failure? then a.rescued.Success? else a.stored.Success?
  }

  /**
   * Every request concerns the call's own key and `__contains__` comes
   * first; the handler is fetched from exactly when it answered "hit", and
   * the body runs exactly when it answered "miss".
   */
  lemma ProtocolShape(key: Key, a: Answers)
    ensures var (trace, _) := Protocol(key, a);
      && trace != [] && trace[0] == Contains(key)
      && (forall r :: r in trace && !r.RunBody? ==> r.key == key)
      && (GetItem(key) in trace <==> a.contains == Success(true))
      && (RunBody in trace <==> a.contains == Success(false))
  {
  }

  /**
   * On a hit the body does not run, the entry is fetched once, nothing is
   * stored, and the fetched entry is replayed: a value is returned, an
   * `Exception` wrapper re-raises the very exception object it holds.
   */
  lemma HitReplays(key: Key, a: Answers)
    requires a.contains == Success(true) && a.fetched.Success?
    ensures var (trace, o) := Protocol(key, a);
      && trace == [Contains(key), GetItem(key)]
      && o == Replay(a.fetched.value)
      && (a.fetched.value.Value? ==> o == Success(a.fetched.value.v))
      && (a.fetched.value.Wrapped? ==> o == Failure(a.fetched.value.error))
  {
  }

  /** On a miss that returns, the body runs once, its value is stored once and returned unchanged. */
  lemma MissReturns(key: Key, a: Answers, v: int)
    requires a.contains == Success(false) && a.body == Success(v) && a.stored.Success?
    ensures Protocol(key, a) == ([Contains(key), RunBody, SetItem(key, Value(v))], Success(v))
  {
  }

  /** On a miss that raises `exc`, `Exception(exc)` is stored and the same `exc` is raised. */
  lemma MissRaises(key: Key, a: Answers, exc: PyError)
    requires a.contains == Success(false) && a.body == Failure(exc) && a.stored.Success?
    ensures Protocol(key, a) == ([Contains(key), RunBody, SetItem(key, Wrapped(exc))], Failure(exc))
  {
  }

  /**
   * Whatever happens on a miss, the last entry handed to the handler
   * describes how the call ended, as long as the handler accepted it.
   */
  lemma {:induction false} StoresOutcome(key: Key, a: Answers)
    requires a.contains == Success(false) && LastStoreOk(a)
    ensures var (trace, o) := Protocol(key, a);
      trace[|trace| - 1] == SetItem(key, EntryOf(o))
  {
    var (trace, o) := Protocol(key, a);
    match a.body {
      case Success(v) =>
        if a.stored.Success? {
          assert o == Success(v);
        } else {
          assert o == Failure(a.stored.error);
        }
      case Failure(exc) =>
        assert o == Failure(exc);
    }
  }

  /**
   * A call answered from what an earlier call of the same key stored ends
   * exactly as that call did: the same value, or the same exception object.
   */
  lemma {:induction false} RepeatedCall(key: Key, first: Answers, second: Answers)
    requires first.contains == Success(false) && LastStoreOk(first)
    requires second.contains == Success(true)
    requires second.fetched == Success(EntryOf(Protocol(key, first).1))
    ensures Protocol(key, second).1 == Protocol(key, first).1
    ensures RunBody !in Protocol(key, second).0
  {
    ReplayEntryOf(Protocol(key, first).1);
  }

  /**
   * tests/test_simple_graph.py:123-160: `g` calls `f`, and `f` raises
   * `exc`. Both calls store an `Exception` wrapper of that same `exc`,
   * and `g` re-raises it.
   */
  lemma {:induction false} NestedFailure(kf: Key, kg: Key, af: Answers, ag: Answers, exc: PyError)
    requires af.contains == Success(false) && af.body == Failure(exc) && af.stored.Success?
    requires ag.contains == Success(false) && ag.body == Protocol(kf, af).1 && ag.stored.Success?
    ensures SetItem(kf, Wrapped(exc)) in Protocol(kf, af).0
    ensures SetItem(kg, Wrapped(exc)) in Protocol(kg, ag).0
    ensures Protocol(kg, ag).1 == Failure(exc)
  {
    MissRaises(kf, af, exc);
    MissRaises(kg, ag, exc);
  }

  // ---------------------------------------------------------------------
  // Function bodies and the wrapper itself
  // ---------------------------------------------------------------------

  /** The body of a shifted function. */
  datatype Expr =
    | Arg(index: nat)                           // the value bound to the parameter at `index`
    | Lit(n: int)
    | Add(left: Expr, right: Expr)
    | Call(callee: Func<int>, args: seq<Expr>)  // a call of the shifted `callee`, arguments positional
    | Throw(kind: ErrorKind)                    // `raise kind()`

  /** The bodies of the functions decorated with `shift`. */
  type Program = map<Func<int>, Expr>

  function Size(e: Expr): (n: nat)
    ensures n >= 1
    decreases e, 1
  {
    match e
    case Add(l, r) => 1 + Size(l) + Size(r)
    case Call(_, args) => 1 + SizeAll(args)
    case _ => 1
  }

  function SizeAll(es: seq<Expr>): nat
    decreases es, 0
  {
    if es == [] then 0 else Size(es[0]) + SizeAll(es[1..])
  }

  /** An outcome without the identity of its exception: the value, or the exception's class. */
  function KindOf<T>(o: Outcome<T>): Result<T>
  {
    if o.Success? then Ok(o.value) else Err(o.error.kind)
  }

  /**
   * What a body evaluates to, when that does not depend on running another
   * body: every call it makes fails before reaching the handler or is
   * answered from `cache`, the graph handler's cache (empty under the other
   * handlers). `None` when some call would run a body. Operands and
   * arguments are evaluated left to right and the first failure ends the
   * evaluation.
   */
  ghost function Known(prog: Program, e: Expr, env: seq<int>, fuel: nat, cache: map<Key, Entry>): Option<Result<int>>
    decreases e, 1
  {
    match e
    case Arg(i) => Some(if i < |env| then Ok(env[i]) else Err(NameError))
    case Lit(n) => Some(Ok(n))
    case Throw(kind) => Some(Err(kind))
    case Add(l, r) =>
      var a := Known(prog, l, env, fuel, cache);
      if a.None? then None
      else if a.value.Err? then Some(Err(a.value.kind))
      else
        var b := Known(prog, r, env, fuel, cache);
        if b.None? then None
        else if b.value.Err? then Some(Err(b.value.kind))
        else Some(Ok(a.value.value + b.value.value))
    case Call(callee, args) =>
      var vs := KnownAll(prog, args, env, fuel, cache);
      if vs.None? then None
      else if vs.value.Err? then Some(Err(vs.value.kind))
      else KnownCall(prog, callee, vs.value.value, fuel, cache)
  }

  /** `Known` for a list of call arguments: all their values, or the first failure. */
  ghost function KnownAll(prog: Program, es: seq<Expr>, env: seq<int>, fuel: nat, cache: map<Key, Entry>): Option<Result<seq<int>>>
    decreases es, 0
  {
    if es == [] then Some(Ok([]))
    else
      var first := Known(prog, es[0], env, fuel, cache);
      if first.None? then None
      else if first.value.Err? then Some(Err(first.value.kind))
      else
        var rest := KnownAll(prog, es[1..], env, fuel, cache);
        if rest.None? then None
        else if rest.value.Err? then Some(Err(rest.value.kind))
        else Some(Ok([first.value.value] + rest.value.value))
  }

  /**
   * A call `callee(*vals)` from a body: `NameError` for a function that is
   * not bound, `RecursionError` without fuel, `TypeError` when the values do
   * not fit the signature, the replayed entry when the key is cached.
   */
  ghost function KnownCall(prog: Program, callee: Func<int>, vals: seq<int>, fuel: nat, cache: map<Key, Entry>): Option<Result<int>>
  {
    if callee !in prog || Shift(callee).Err? then Some(Err(NameError))
    else if fuel == 0 then Some(Err(RecursionError))
    else if Bind(callee.params, vals, map[]).Err? then Some(Err(TypeError))
    else
      var key := KeyOf(Shift(callee).value, Bind(callee.params, vals, map[]).value);
      if key in cache then Some(KindOf(Replay(cache[key]))) else None
  }

  /** A cache that only gained entries answers every call it answered before, the same way. */
  lemma {:induction false} KnownGrows(prog: Program, e: Expr, env: seq<int>, fuel: nat, c: map<Key, Entry>, c': map<Key, Entry>)
    requires Extends(c, c') && Known(prog, e, env, fuel, c).Some?
    ensures Known(prog, e, env, fuel, c') == Known(prog, e, env, fuel, c)
    decreases e, 1
  {
    match e {
      case Add(l, r) =>
        KnownGrows(prog, l, env, fuel, c, c');
        if Known(prog, l, env, fuel, c).value.Ok? {
          KnownGrows(prog, r, env, fuel, c, c');
        }
      case Call(callee, args) =>
        KnownAllGrows(prog, args, env, fuel, c, c');
      case _ =>
    }
  }

  lemma {:induction false} KnownAllGrows(prog: Program, es: seq<Expr>, env: seq<int>, fuel: nat, c: map<Key, Entry>, c': map<Key, Entry>)
    requires Extends(c, c') && KnownAll(prog, es, env, fuel, c).Some?
    ensures KnownAll(prog, es, env, fuel, c') == KnownAll(prog, es, env, fuel, c)
    decreases es, 0
  {
    if es != [] {
      KnownGrows(prog, es[0], env, fuel, c, c');
      if Known(prog, es[0], env, fuel, c).value.Ok? {
        KnownAllGrows(prog, es[1..], env, fuel, c, c');
      }
    }
  }

  /** The cache the handler answers calls from: the graph handler's, else none. */
  function CacheOf(h: Handler): map<Key, Entry>
    reads Objs(h)
  {
    if h.Graph? then h.graph.retvals else map[]
  }

  /** The active handler's cache. */
  function ActiveCache(s: HandlerStack): map<Key, Entry>
    reads s, ActiveObjs(s)
  {
    if s.handlers == [] then map[] else CacheOf(s.handlers[|s.handlers| - 1])
  }

  /** The objects the active handler's protocol calls may update. */
  function ActiveObjs(s: HandlerStack): set<object>
    reads s
  {
    if s.handlers == [] then {} else Objs(s.handlers[|s.handlers| - 1])
  }

  /** What a handler's stack and cache look like, to compare before and after a call. */
  datatype Snapshot =
    | Blank
    | GraphState(stack: seq<Key>, retvals: map<Key, Entry>)
    | ChildState(path: seq<Option<Key>>)
    | ParentState(chain: seq<Key>)

  ghost function Snap(h: Handler): Snapshot
    reads Objs(h)
  {
    match h
    case Null(_) => Blank
    case Graph(g) => GraphState(g.stack, g.retvals)
    case Children(c) => ChildState(c.stack)
    case Parents(p) => ParentState(p.stack)
  }

  /** Every cached entry of `before` is still cached, unchanged. */
  ghost predicate Extends(before: map<Key, Entry>, after: map<Key, Entry>)
  {
    forall k :: k in before ==> k in after && after[k] == before[k]
  }

  /**
   * The state a finished call leaves: the handler's stack is back to what
   * it was, and the graph handler's cache has only gained entries.
   */
  ghost predicate Settled(h: Handler, before: Snapshot)
    reads Objs(h)
  {
    match h
    case Null(_) => true
    case Graph(g) => before.GraphState? && g.stack == before.stack && Extends(before.retvals, g.retvals)
    case Children(c) => before.ChildState? && c.stack == before.path
    case Parents(p) => before.ParentState? && p.stack == before.chain
  }

  /** The graph handler keeps its edge symmetry. */
  ghost predicate Ready(h: Handler)
    reads Objs(h)
  {
    h.Graph? ==> h.graph.Valid()
  }

  ghost predicate ActiveReady(s: HandlerStack)
    reads s, ActiveObjs(s)
  {
    s.handlers != [] ==> Ready(s.handlers[|s.handlers| - 1])
  }

  /**
   * Evaluate a body with its parameters bound to `env`. An argument index
   * outside the signature raises `NameError`; calls go through `EvalCall`.
   */
  method Eval(s: HandlerStack, prog: Program, e: Expr, env: seq<int>, fuel: nat) returns (o: Outcome<int>)
    requires ActiveReady(s)
    modifies ActiveObjs(s)
    ensures ActiveReady(s)
    ensures s.handlers != [] ==> Settled(s.handlers[|s.handlers| - 1], old(Snap(s.handlers[|s.handlers| - 1])))
    ensures Extends(old(ActiveCache(s)), ActiveCache(s))
    ensures s.handlers != [] && Known(prog, e, env, fuel, old(ActiveCache(s))).Some? ==>
      KindOf(o) == Known(prog, e, env, fuel, old(ActiveCache(s))).value
    decreases fuel, 1, Size(e), 0
  {
    match e {
      case Arg(i) =>
        if i < |env| {
          o := Success(env[i]);
        } else {
          o := Raise(NameError);
        }
      case Lit(n) =>
        o := Success(n);
      case Add(l, r) =>
        o := EvalAdd(s, prog, l, r, env, fuel);
      case Call(callee, args) =>
        o := EvalApply(s, prog, callee, args, env, fuel);
      case Throw(kind) =>
        o := Raise(kind);
    }
  }

  /** `l + r`: the left operand first; the first failure ends it. */
  method EvalAdd(s: HandlerStack, prog: Program, l: Expr, r: Expr, env: seq<int>, fuel: nat) returns (o: Outcome<int>)
    requires ActiveReady(s)
    modifies ActiveObjs(s)
    ensures ActiveReady(s)
    ensures s.handlers != [] ==> Settled(s.handlers[|s.handlers| - 1], old(Snap(s.handlers[|s.handlers| - 1])))
    ensures Extends(old(ActiveCache(s)), ActiveCache(s))
    ensures s.handlers != [] && Known(prog, Add(l, r), env, fuel, old(ActiveCache(s))).Some? ==>
      KindOf(o) == Known(prog, Add(l, r), env, fuel, old(ActiveCache(s))).value
    decreases fuel, 1, Size(l) + Size(r), 1
  {
    ghost var c0 := ActiveCache(s);
    ghost var known := s.handlers != [] && Known(prog, Add(l, r), env, fuel, c0).Some?;
    ghost var kr := Known(prog, r, env, fuel, c0);
    var a := Eval(s, prog, l, env, fuel);
    if a.Failure? {
      return a;
    }
    ghost var c1 := ActiveCache(s);
    var b := Eval(s, prog, r, env, fuel);
    if known {
      KnownGrows(prog, r, env, fuel, c0, c1);
      assert kr.Some? ==> KindOf(b) == kr.value;
    }
    if b.Failure? {
      return b;
    }
    o := Success(a.value + b.value);
  }

  /** `callee(*args)`: the arguments from left to right, then the call. */
  method EvalApply(s: HandlerStack, prog: Program, callee: Func<int>, args: seq<Expr>, env: seq<int>, fuel: nat) returns (o: Outcome<int>)
    requires ActiveReady(s)
    modifies ActiveObjs(s)
    ensures ActiveReady(s)
    ensures s.handlers != [] ==> Settled(s.handlers[|s.handlers| - 1], old(Snap(s.handlers[|s.handlers| - 1])))
    ensures Extends(old(ActiveCache(s)), ActiveCache(s))
    ensures s.handlers != [] && Known(prog, Call(callee, args), env, fuel, old(ActiveCache(s))).Some? ==>
      KindOf(o) == Known(prog, Call(callee, args), env, fuel, old(ActiveCache(s))).value
    decreases fuel, 1, SizeAll(args), 2
  {
    ghost var c0 := ActiveCache(s);
    ghost var known := s.handlers != [] && Known(prog, Call(callee, args), env, fuel, c0).Some?;
    var vals := EvalAll(s, prog, args, env, fuel);
    if vals.Failure? {
      return Failure(vals.error);
    }
    ghost var c1 := ActiveCache(s);
    ghost var kc := KnownCall(prog, callee, vals.value, fuel, c0);
    assert known ==> Known(prog, Call(callee, args), env, fuel, c0) == kc;
    assert known ==> KnownCall(prog, callee, vals.value, fuel, c1) == kc;
    o := EvalCall(s, prog, callee, vals.value, fuel);
  }

  /**
   * A call `callee(*vals)` in a body. A function without a body, or one
   * whose `@shift` decoration raised (so its name was never bound), raises
   * `NameError`; otherwise its wrapper runs.
   */
  method EvalCall(s: HandlerStack, prog: Program, callee: Func<int>, vals: seq<int>, fuel: nat) returns (o: Outcome<int>)
    requires ActiveReady(s)
    modifies ActiveObjs(s)
    ensures ActiveReady(s)
    ensures s.handlers != [] ==> Settled(s.handlers[|s.handlers| - 1], old(Snap(s.handlers[|s.handlers| - 1])))
    ensures Extends(old(ActiveCache(s)), ActiveCache(s))
    ensures s.handlers != [] && KnownCall(prog, callee, vals, fuel, old(ActiveCache(s))).Some? ==>
      KindOf(o) == KnownCall(prog, callee, vals, fuel, old(ActiveCache(s))).value
    ensures callee !in prog || Shift(callee).Err? ==> o.Failure? && o.error.kind == NameError
    decreases fuel, 0, 1, 0
  {
    var w := Shift(callee);
    if callee !in prog || w.Err? {
      o := Raise(NameError);
      return;
    }
    ghost var trace, answers;
    o, trace, answers := Invoke(s, prog, w.value, vals, map[], fuel);
  }

  /** Evaluate call arguments from left to right; the first failure ends it. */
  method EvalAll(s: HandlerStack, prog: Program, es: seq<Expr>, env: seq<int>, fuel: nat) returns (o: Outcome<seq<int>>)
    requires ActiveReady(s)
    modifies ActiveObjs(s)
    ensures ActiveReady(s)
    ensures s.handlers != [] ==> Settled(s.handlers[|s.handlers| - 1], old(Snap(s.handlers[|s.handlers| - 1])))
    ensures o.Success? ==> |o.value| == |es|
    ensures Extends(old(ActiveCache(s)), ActiveCache(s))
    ensures s.handlers != [] && KnownAll(prog, es, env, fuel, old(ActiveCache(s))).Some? ==>
      KindOf(o) == KnownAll(prog, es, env, fuel, old(ActiveCache(s))).value
    decreases fuel, 1, SizeAll(es), 1
  {
    if es == [] {
      return Success([]);
    }
    ghost var c0 := ActiveCache(s);
    ghost var known := s.handlers != [] && KnownAll(prog, es, env, fuel, c0).Some?;
    ghost var kr := KnownAll(prog, es[1..], env, fuel, c0);
    var first := Eval(s, prog, es[0], env, fuel);
    if first.Failure? {
      return Failure(first.error);
    }
    ghost var c1 := ActiveCache(s);
    var rest := EvalAll(s, prog, es[1..], env, fuel);
    if known {
      KnownAllGrows(prog, es[1..], env, fuel, c0, c1);
      assert kr.Some? ==> KindOf(rest) == kr.value;
    }
    if rest.Failure? {
      return rest;
    }
    o := Success([first.value] + rest.value);
  }

  /**
   * The handler read of src/snake/shifter/wrapper.py:35 as written:
   * `Context._handlers[-1]` looks `_handlers` up on the class `Context`,
   * which raises `AttributeError` unless the class defines that name.
   */
  function ActiveHandlerAsWritten(s: HandlerStack): Result<Handler>
    reads s
  {
    if "_handlers" in ContextClassAttributes then
      match s.Active()
      case Some(h) => Ok(h)
      case None => Err(IndexError)
    else
      Err(AttributeError)
  }

  /**
   * As written, the read fails with `AttributeError` whatever the stack
   * holds, even with a handler active (the initial `NullHandler`
   * included), so every call of a shifted function would raise before
   * reaching its handler. `Invoke` reads the top of the module stack
   * instead, as `get_handler()` does.
   */
  lemma HandlerReadAsWrittenFails(s: HandlerStack)
    ensures ActiveHandlerAsWritten(s) == Err(AttributeError)
  {
  }

  /**
   * `_func(*pos, **kw)`: read the active handler (`get_handler()`), bind the
   * arguments and build the key, then follow `Protocol` with the answers
   * the handler and the body give. On a miss the body runs once and its
   * outcome is stored and returned unchanged. Which answers come back is
   * fixed by the active handler: the null and parents handlers never hit
   * and accept every store; the children handler does the same unless its
   * `__contains__` raises; the graph handler hits exactly on a cached key,
   * leaves the outcome cached under the key, and replays a cached entry.
   */
  method Invoke(s: HandlerStack, prog: Program, w: Shifted, pos: seq<int>, kw: map<string, int>, fuel: nat)
      returns (o: Outcome<int>, ghost trace: seq<Request>, ghost a: Answers)
    requires Shift(w.func) == Ok(w) && w.func in prog
    requires ActiveReady(s)
    modifies ActiveObjs(s)
    ensures ActiveReady(s)
    ensures s.handlers != [] ==> Settled(s.handlers[|s.handlers| - 1], old(Snap(s.handlers[|s.handlers| - 1])))
    ensures fuel == 0 ==> o.Failure? && fresh(o.error) && o.error.kind == RecursionError && trace == []
    ensures fuel > 0 && s.handlers == [] ==> o.Failure? && fresh(o.error) && o.error.kind == IndexError && trace == []
    ensures fuel > 0 && s.handlers != [] && Bind(w.func.params, pos, kw).Err? ==>
      o.Failure? && fresh(o.error) && o.error.kind == TypeError && trace == []
    ensures fuel > 0 && s.handlers != [] && Bind(w.func.params, pos, kw).Ok? ==>
      var key := KeyOf(w, Bind(w.func.params, pos, kw).value);
      var h := s.handlers[|s.handlers| - 1];
      && (trace, o) == Protocol(key, a)
      && (a.contains.Success? ==> LastStoreOk(a))
      && (h.Graph? ==>
            && a.contains == Success(old(key in h.graph.retvals))
            && key in h.graph.retvals && h.graph.retvals[key] == EntryOf(o)
            && (old(key in h.graph.retvals) ==> o == Replay(old(h.graph.retvals[key]))))
      && (a.contains == Success(false) ==>
            trace == [Contains(key), RunBody, SetItem(key, EntryOf(a.body))] && o == a.body)
      && (a.contains == Success(false) ==>
            var k := Known(prog, prog[w.func], Bind(w.func.params, pos, kw).value, fuel - 1, old(ActiveCache(s)));
            k.Some? ==> KindOf(o) == k.value)
      && ((h.Null? || h.Parents?) ==> a.contains == Success(false) && a.stored.Success?)
      && (h.Children? ==>
            var t := ChildHandler.Test(old(h.children.Model()), key);
            && (t.Ok? ==> a.contains == Success(false) && a.stored.Success?)
            && (t.Err? ==> a.contains.Failure? && a.contains.error.kind == t.kind))
    decreases fuel, 0, 0, 0
  {
    trace := [];
    a := Answers(Success(false), Success(Value(0)), Success(0), Success(()), Success(()));
    if fuel == 0 {
      o := Raise(RecursionError);
      return;
    }
    var active := s.GetHandler();
    if active.Err? {
      o := Raise(active.kind);
      return;
    }
    var bound := Bind(w.func.params, pos, kw);
    if bound.Err? {
      o := Raise(bound.kind);
      return;
    }
    var key := KeyOf(w, bound.value);
    o, trace, a := Intercept(s, prog, w.func, bound.value, key, fuel - 1);
  }

  /**
   * src/snake/shifter/wrapper.py:43-55 on the active handler, for a call
   * whose parameters are bound to `vals`; `fuel` is what the body may use.
   * With the handlers of this model the stores never raise (their stacks
   * hold the key pushed by `__contains__`), so the two `except` paths that
   * start from a failed store are not reached.
   */
  method Intercept(s: HandlerStack, prog: Program, f: Func<int>, vals: seq<int>, key: Key, fuel: nat)
      returns (o: Outcome<int>, ghost trace: seq<Request>, ghost a: Answers)
    requires s.handlers != [] && f in prog
    requires ActiveReady(s)
    modifies ActiveObjs(s)
    ensures ActiveReady(s)
    ensures Settled(s.handlers[|s.handlers| - 1], old(Snap(s.handlers[|s.handlers| - 1])))
    ensures (trace, o) == Protocol(key, a)
    ensures a.contains.Success? ==> LastStoreOk(a)
    ensures a.contains == Success(false) ==> a.stored.Success?
    ensures a.contains == Success(false) && Known(prog, prog[f], vals, fuel, old(ActiveCache(s))).Some? ==>
      KindOf(a.body) == Known(prog, prog[f], vals, fuel, old(ActiveCache(s))).value
    ensures var h := s.handlers[|s.handlers| - 1];
      h.Graph? ==>
        && a.contains == Success(old(key in h.graph.retvals))
        && key in h.graph.retvals && h.graph.retvals[key] == EntryOf(o)
        && (old(key in h.graph.retvals) ==> o == Replay(old(h.graph.retvals[key])))
    ensures var h := s.handlers[|s.handlers| - 1];
      (h.Null? || h.Parents?) ==> a.contains == Success(false) && a.stored.Success?
    ensures var h := s.handlers[|s.handlers| - 1];
      h.Children? ==>
        var t := ChildHandler.Test(old(h.children.Model()), key);
        && (t.Ok? ==> a.contains == Success(false) && a.stored.Success?)
        && (t.Err? ==> a.contains.Failure? && a.contains.error.kind == t.kind)
    decreases fuel, 3, 0, 0
  {
    var h := s.handlers[|s.handlers| - 1];
    a := Answers(Success(false), Success(Value(0)), Success(0), Success(()), Success(()));
    var hit := Test(h, key);
    a := a.(contains := hit);
    if hit.Failure? {
      o := Failure(hit.error);
      trace := [Contains(key)];
      return;
    }
    if hit.value {
      // only the graph handler ever answers "hit", and then holds the key
      ghost var fetched;
      o, fetched := Lookup(h, key);
      a := a.(fetched := fetched);
      trace := [Contains(key), GetItem(key)];
    } else {
      ghost var stored;
      o, stored := Compute(s, prog, f, vals, key, fuel);
      a := a.(body := o, stored := stored);
      trace := [Contains(key), RunBody, SetItem(key, EntryOf(o))];
    }
  }

  /** A hit: `handler[key]`, then the entry is returned or its exception re-raised. */
  method Lookup(h: Handler, key: Key) returns (o: Outcome<int>, ghost fetched: Outcome<Entry>)
    requires h.Graph? && key in h.graph.retvals
    ensures fetched == Success(h.graph.retvals[key])
    ensures o == Replay(h.graph.retvals[key])
  {
    var r := Fetch(h, key);
    fetched := r;
    if r.Failure? {
      assert false;
    }
    o := Replay(r.value);
  }

  /**
   * A miss, once `__contains__` has pushed the key: run the body, store its
   * value or the `Exception` wrapper of its exception (which pops the key),
   * and end as the body did.
   */
  method Compute(s: HandlerStack, prog: Program, f: Func<int>, vals: seq<int>, key: Key, fuel: nat)
      returns (o: Outcome<int>, ghost stored: Outcome<()>)
    requires s.handlers != [] && f in prog
    requires ActiveReady(s)
    requires var h := s.handlers[|s.handlers| - 1];
      && (h.Graph? ==> h.graph.stack != [] && key !in h.graph.retvals)
      && (h.Children? ==> h.children.stack != [])
      && (h.Parents? ==> h.parents.stack != [])
    modifies ActiveObjs(s)
    ensures ActiveReady(s)
    ensures stored.Success?
    ensures Known(prog, prog[f], vals, fuel, old(ActiveCache(s))).Some? ==>
      KindOf(o) == Known(prog, prog[f], vals, fuel, old(ActiveCache(s))).value
    ensures var h := s.handlers[|s.handlers| - 1];
      && (h.Graph? ==>
            && h.graph.stack == old(h.graph.stack)[..|old(h.graph.stack)| - 1]
            && Extends(old(h.graph.retvals), h.graph.retvals)
            && key in h.graph.retvals && h.graph.retvals[key] == EntryOf(o))
      && (h.Children? ==> h.children.stack == old(h.children.stack)[..|old(h.children.stack)| - 1])
      && (h.Parents? ==> h.parents.stack == old(h.parents.stack)[..|old(h.parents.stack)| - 1])
    decreases fuel, 2, 0, 0
  {
    var h := s.handlers[|s.handlers| - 1];
    o := Eval(s, prog, prog[f], vals, fuel);
    var r := Store(h, key, EntryOf(o));
    stored := r;
    if r.Failure? {
      assert false;
    }
  }

  /**
   * Under the graph handler, calling a shifted function a second time with
   * the same arguments ends exactly as the first call did (the same value, or
   * the same exception object) without running the body again: the second
   * call only asks `__contains__` and `__getitem__`
   * (tests/test_simple_graph.py:145-153, tests/test_simple_funcs.py:36-40).
   */
  method RepeatCall(s: HandlerStack, prog: Program, w: Shifted, pos: seq<int>, kw: map<string, int>, fuel: nat)
      returns (first: Outcome<int>, second: Outcome<int>, ghost trace: seq<Request>)
    requires Shift(w.func) == Ok(w) && w.func in prog
    requires s.handlers != [] && s.handlers[|s.handlers| - 1].Graph? && ActiveReady(s)
    requires fuel > 0 && Bind(w.func.params, pos, kw).Ok?
    modifies ActiveObjs(s)
    ensures second == first
    ensures trace == [Contains(KeyOf(w, Bind(w.func.params, pos, kw).value)), GetItem(KeyOf(w, Bind(w.func.params, pos, kw).value))]
  {
    ghost var a;
    first, trace, a := Invoke(s, prog, w, pos, kw, fuel);
    second, trace, a := Invoke(s, prog, w, pos, kw, fuel);
    ReplayEntryOf(first);
  }
}
