# snake-shifter call interception, modelled in Dafny

snake-shifter turns ordinary Python functions into "shifted" functions.
When a shifted function is called, it builds a call key from its arguments.
It then asks the active handler whether the key is known (`__contains__`).
On a hit it fetches the answer (`__getitem__`). On a miss it runs the body
and hands the outcome to the handler (`__setitem__`). Handlers are pushed
and popped by a `Context` manager on a module-level stack whose bottom is a
`NullHandler`. The repository's tests define three handlers that record the
call graph; the dependency-graph handler also caches results and can `bump`
a cached value, evicting everything that depends on it.

The project models:

- `python.dfy`: the Python notions the model needs. Exceptions are objects, so "the same exception" is reference equality. A call ends in `Success(v)` or `Failure(exc)`. A handler receives an `Entry`: a value, or the `Exception(exc)` wrapper of a failure.
- `keys.dfy`: `make_key_type` (src/snake/shifter/key_type.py). It covers the names `namedtuple` refuses with `ValueError`, the field layout, the defaults, the trailing `func__` field, key equality and the `_repr` rendering through the `%` operator.
- `graph_spec.dfy`: `GraphCallHandler` as values, with its three protocol operations and `bump`. It proves edge symmetry, reachability of the evicted set, and what survives a bump.
- `graph_handler.dfy`: the `GraphCallHandler` class. Its methods update the fields in place and are proved against `graph_spec.dfy`. That includes `bump`'s work-list loop, which extends the list it walks.
- `child_handler.dfy` and `parent_handler.dfy`: `ChildCallHandler` and `ParentCallHandler`, each as values and as a class.
- `graph_examples.dfy`: the states the graph tests expect, derived from the model.
- `context.dfy`: `NullHandler`, the handler stack `_handlers`, `get_handler`, `Context.__enter__`/`__exit__`, dispatch of one protocol call to a handler, and nested `with` blocks.
- `wrapper.dfy`: `shift`, argument binding with defaults, the hit/miss/exception protocol of `_func` as a function of the answers it receives, and `_func` itself (`Invoke`). `Invoke` runs function bodies written in a small expression language, so that shifted calls nest. `Known` says what a body evaluates to when every call it makes is answered from the handler's cache or fails before reaching the handler.
- `wrapper_examples.dfy`: concrete calls run through `Invoke`: `f(1, 2) == 3` under a handler that never hits, and `g(1, 2) == 12` under the bumped graph handler.

## Model

| member | source | states |
|---|---|---|
| Python.EntryOf | src/snake/shifter/wrapper.py:49-54 | the stored entry is a value exactly when the call returned; it holds that value, or the very exception object the call raised |
| Python.Replay | src/snake/shifter/wrapper.py:44-48 | replaying an entry and storing the result gives the same entry back |
| Python.ReplayEntryOf | src/snake/shifter/wrapper.py:44-54 | storing an outcome and replaying it gives the outcome back: the same value, or the same exception object |
| Keys.MakeKeyType | src/snake/shifter/key_type.py:20-37 | a key type that exposes the function it was built from, or `ValueError` when `namedtuple` refuses the names |
| Keys.MakeKeyTypeAccepts | src/snake/shifter/key_type.py:23-28 | `make_key_type` succeeds exactly when the function's name is an identifier and no keyword, and its parameter names are distinct identifiers, no keyword, not starting with `_` and not `func__` |
| Keys.LambdaRefused | src/snake/shifter/key_type.py:23-24 | a function named `<lambda>` gets no key type: `ValueError` |
| Keys.FieldNames | src/snake/shifter/key_type.py:25 | one field per parameter in signature order, then the field `func__` |
| Keys.Defaults | src/snake/shifter/key_type.py:26 | each parameter field defaults to the parameter's declared default, or to the "no default" sentinel |
| Keys.NewLayout | src/snake/shifter/key_type.py:20-37 | a key holds the given values first and the defaults of the remaining parameters after them; its function is the key type's function |
| Keys.OmittedIsDefault | src/snake/shifter/key_type.py:26 | leaving out a trailing argument builds the same key as passing its default |
| Keys.KeyEquality | src/snake/shifter/key_type.py:23-30 | two keys are equal exactly when they come from the same function and their argument fields are equal |
| Keys.DistinctEntries | tests/test_key_type.py:28-33 | keys of two different functions with the same arguments are two separate dictionary entries, each holding its own value |
| Keys.InterpolatePlaceholders | src/snake/shifter/key_type.py:15-18 | the `name=%r` format of `_repr` consumes one rendered value per parameter and yields `name=value` pairs joined by commas |
| Keys.ReprIsDisplay | src/snake/shifter/key_type.py:15-18 | when no parameter name holds `%`, `_repr` gives `module.name(p1=v1, ...)` with the parameters in order and `func__` left out |
| Keys.ReprExample | tests/test_key_type.py:36-44 | `make_key_type` accepts the test's `f(a, b)`, and the key of `f(1, 2)` renders as `tests.test_key_type.f(a=1, b=2)` |
| GraphSpec.AddTo | tests/test_simple_graph.py:36-37 | `d[k].add(x)` on a `defaultdict(set)` adds `x` to the set of `k`, creates the entry if needed and leaves other entries alone |
| GraphSpec.TestAnswer | tests/test_simple_graph.py:39-43 | `__contains__` answers True exactly when the key is cached; a hit leaves the stack unchanged and a miss pushes the key; the cache is unchanged |
| GraphSpec.TestEdges | tests/test_simple_graph.py:33-37 | the only edge `__contains__` adds is top to key, in both `children` and `parents`, and only when the stack is not empty |
| GraphSpec.FetchAnswer | tests/test_simple_graph.py:45-47 | `__getitem__` succeeds exactly on a cached key and returns its cached value |
| GraphSpec.StoreEffect | tests/test_simple_graph.py:49-52 | `__setitem__` caches the value and pops exactly the top of the stack; the pop fails only on an empty stack; the edges are unchanged |
| GraphSpec.TestKeepsInverse | tests/test_simple_graph.py:33-43 | `__contains__` keeps `children` and `parents` exact inverses |
| GraphSpec.RunKeepsInverse | tests/test_simple_graph.py:33-52 | any sequence of `__contains__` and `__setitem__` calls keeps the edge maps exact inverses |
| GraphSpec.ReachableIsValid | tests/test_simple_graph.py:26-52 | every state reachable from `__init__` has inverse edge maps |
| GraphSpec.Dependents | tests/test_simple_graph.py:68-71 | the keys `bump` visits include the changed keys and are closed under taking parents |
| GraphSpec.DependentsLeast | tests/test_simple_graph.py:68-71 | the visited keys are the smallest such set |
| GraphSpec.DependentsIsReachability | tests/test_simple_graph.py:68-71 | a key is visited exactly when an upward path through `parents` leads to it from a changed key |
| GraphSpec.StripStep | tests/test_simple_graph.py:71-77 | dropping a key's entry and removing it from each child's parent set is the same as stripping that key from the whole map |
| GraphSpec.BumpEvicts | tests/test_simple_graph.py:68-80 | after `bump`, a dependent of a changed key has no cached value unless it was changed itself, in which case it holds its override; it has no edge entries |
| GraphSpec.BumpKeeps | tests/test_simple_graph.py:58-80 | after `bump`, a key that depends on no changed key keeps its cached value, or stays uncached, and keeps its children and its parents entry |
| GraphSpec.BumpParents | tests/test_simple_graph.py:71-77 | a surviving key loses exactly those parents that were evicted |
| GraphSpec.BumpKeepsInverse | tests/test_simple_graph.py:54-82 | the handler `bump` returns again has inverse edge maps |
| GraphHandler.Extend | tests/test_simple_graph.py:71 | `deps.extend(s)` keeps the list as it was and appends each element of `s` once |
| GraphHandler.GraphCallHandler.constructor | tests/test_simple_graph.py:26-31 | a new handler has an empty stack, no edges and an empty cache |
| GraphHandler.GraphCallHandler.Contains | tests/test_simple_graph.py:33-43 | the new fields and the answer are those of `GraphSpec.Test` on the old fields; edge symmetry is kept |
| GraphHandler.GraphCallHandler.GetItem | tests/test_simple_graph.py:45-47 | returns the cached value of a cached key, and fails with `KeyError` on any other key |
| GraphHandler.GraphCallHandler.SetItem | tests/test_simple_graph.py:49-52 | the new fields are those of `GraphSpec.Store`; the result is false exactly when the pop raised `IndexError`; edge symmetry is kept |
| GraphHandler.GraphCallHandler.UnlinkChildren | tests/test_simple_graph.py:75-77 | removes `dep` from the parent set of every listed child that has an entry, changing nothing else |
| GraphHandler.GraphCallHandler.Bump | tests/test_simple_graph.py:54-82 | returns a new handler whose state is `GraphSpec.Bump` of the receiver's state, with inverse edge maps; the receiver is not modified |
| GraphHandler.GraphCallHandler.Propagate | tests/test_simple_graph.py:68-77 | the work-list loop terminates although it extends its list; afterwards exactly the dependents of the changed keys are evicted and stripped from the edges |
| GraphHandler.GraphCallHandler.Advance | tests/test_simple_graph.py:69-77 | one pass of the loop visits one more key, and either shrinks the parents map or leaves the list as long as it was |
| GraphHandler.GraphCallHandler.VisitKey | tests/test_simple_graph.py:69-77 | visiting a key returns its remaining parents and moves the state to "one more key visited" |
| GraphHandler.GraphCallHandler.Visit | tests/test_simple_graph.py:71-77 | pops the key's parents (returned), cached value and children, and removes the key from the parent set of each of its children |
| GraphHandler.VisitOne | tests/test_simple_graph.py:71-77 | on a symmetric graph no `remove` in the loop can fail, and one visit equals stripping one more key |
| GraphHandler.FrontierStep | tests/test_simple_graph.py:69-71 | extending the work list with the visited key's parents keeps every listed key a dependent and every visited key's parents listed |
| GraphHandler.FrontierDone | tests/test_simple_graph.py:68-71 | when the loop ends, the visited keys are exactly the dependents of the changed keys |
| ChildHandler.TestEffect | tests/test_simple_children.py:26-31 | `__contains__` fails only on an empty stack; otherwise it adds the key to the top's child set, pushes it and resets its own child set to empty, leaving the other sets alone |
| ChildHandler.TestKeepsValid | tests/test_simple_children.py:26-31 | after `__contains__`, every call on the stack still has a child set |
| ChildHandler.PopKeepsValid | tests/test_simple_children.py:37-39 | `__setitem__` succeeds exactly on a non-empty stack and changes no child set |
| ChildHandler.RunKeepsValid | tests/test_simple_children.py:21-39 | no sequence of calls loses the child set of a call on the stack, so `__contains__` never raises `KeyError` |
| ChildHandler.NestedCallExample | tests/test_simple_children.py:56-65 | after `g` calls `f`, the root's children are `{g}`, `g`'s are `{f}` and `f`'s are empty, and only the root is left on the stack |
| ChildHandler.ChildCallHandler.constructor | tests/test_simple_children.py:21-24 | the stack holds the root `None`, which has an empty child set |
| ChildHandler.ChildCallHandler.Contains | tests/test_simple_children.py:26-31 | answers False and updates the state as `ChildHandler.Test`, or raises its error and changes nothing |
| ChildHandler.ChildCallHandler.GetItem | tests/test_simple_children.py:33-35 | always raises `NotImplementedError` |
| ChildHandler.ChildCallHandler.SetItem | tests/test_simple_children.py:37-39 | pops one entry and ignores the value, or raises `IndexError` on an empty stack and changes nothing |
| ParentHandler.TestEffect | tests/test_simple_parents.py:33-38 | `__contains__` always pushes the key and adds exactly the edge from the running call, if there is one |
| ParentHandler.NestedCallExample | tests/test_simple_parents.py:64-69 | after `g` calls `f`, `g` has no parents, `f` has `{g}` and the stack is empty |
| ParentHandler.AgreesWithGraph | tests/test_simple_parents.py:33-46 | while the graph handler answers no call from its cache, it keeps the same stack and parent edges as `ParentCallHandler` |
| ParentHandler.ParentCallHandler.constructor | tests/test_simple_parents.py:28-31 | an empty stack and no parents |
| ParentHandler.ParentCallHandler.Contains | tests/test_simple_parents.py:33-38 | always answers False; the new state is `ParentHandler.Test` of the old |
| ParentHandler.ParentCallHandler.GetItem | tests/test_simple_parents.py:40-42 | always raises `NotImplementedError` |
| ParentHandler.ParentCallHandler.SetItem | tests/test_simple_parents.py:44-46 | pops one entry and ignores the value, or raises `IndexError` on an empty stack and changes nothing |
| GraphExamples.CallOuter | tests/test_simple_graph.py:35-43 | a top-level call that misses records no edge and is pushed |
| GraphExamples.CallMiss | tests/test_simple_graph.py:35-43 | a nested call that misses adds one edge on each side and is pushed |
| GraphExamples.CallHit | tests/test_simple_graph.py:35-40 | a nested call that hits adds one edge on each side and pushes nothing |
| GraphExamples.Returned | tests/test_simple_graph.py:49-52 | a return caches the value and pops the stack |
| GraphExamples.FirstCallState | tests/test_simple_graph.py:99-101 | after the first `g(1, 2)`, `f` has parent `g`, `g` has child `f`, both results are cached and the stack is empty |
| GraphExamples.SimpleGraphExample | tests/test_simple_graph.py:99-115 | the second `g(1, 2)` is a cache hit; afterwards the edges and the cache are as the test asserts |
| GraphExamples.BumpSetup | tests/test_simple_graph.py:177-180 | after `g(1, 2)` and `g(1, 3)`, `f(1)` has parents `g(1, 2)` and `g(1, 3)`, and all five results are cached |
| GraphExamples.BumpReach | tests/test_simple_graph.py:68-71 | bumping `f(1)` visits `f(1)`, `g(1, 2)` and `g(1, 3)` and nothing else |
| GraphExamples.BumpExample | tests/test_simple_graph.py:184-193 | the bumped handler has `parents == {f(2): {}, f(3): {}}`, no children, and the cache `{f(2): 2, f(3): 3, f(1): 10}` |
| Context.NullHandler.Contains | src/snake/shifter/context.py:25-27 | always False |
| Context.NullHandler.GetItem | src/snake/shifter/context.py:29-31 | always raises `NotImplementedError` |
| Context.NullHandler.SetItem | src/snake/shifter/context.py:33-35 | accepts any value and drops it |
| Context.Test | src/snake/shifter/wrapper.py:43 | `key in handler` on each handler class, tied to that handler's model; only the children handler can raise, and then it changes nothing |
| Context.Fetch | src/snake/shifter/wrapper.py:44 | the graph handler returns the cached entry or raises `KeyError`; every other handler raises `NotImplementedError` |
| Context.Store | src/snake/shifter/wrapper.py:51 | `handler[key] = entry` on each handler class, tied to that handler's model; it can only raise `IndexError` |
| Context.HandlerStack.constructor | src/snake/shifter/context.py:41 | the stack starts as a single `NullHandler` |
| Context.HandlerStack.GetHandler | src/snake/shifter/context.py:44-46 | the last element of the stack, or `IndexError` when it is empty |
| Context.Context.constructor | src/snake/shifter/context.py:7-9 | the context holds the given handler |
| Context.Context.Enter | src/snake/shifter/context.py:11-15 | appends the handler to the stack and returns that same handler |
| Context.Context.Exit | src/snake/shifter/context.py:17-19 | removes exactly the last element whatever exception is leaving the block, and suppresses nothing; `IndexError` on an empty stack |
| Context.PushExample | tests/test_context.py:20-27 | inside the block the active handler is the pushed one; after it, the active handler is the bottom `NullHandler` again |
| Context.ScopeBalanced | src/snake/shifter/context.py:11-19 | a `with` block, however deeply nested, gives the stack back as it found it, and no step of it pops below where it started, so the bottom `NullHandler` is never removed |
| Context.ScopesBalanced | src/snake/shifter/context.py:11-19 | a sequence of such blocks gives the stack back unchanged and never pops below its start |
| Context.InnerActive | src/snake/shifter/context.py:44-46 | inside a block, before and after each nested block, the active handler is the block's own |
| Wrapper.Shift | src/snake/shifter/wrapper.py:18-28 | a wrapper exists exactly when `make_key_type` accepts the function; it calls that function and its key type is built from it; otherwise `ValueError` |
| Wrapper.Bind | src/snake/shifter/wrapper.py:39-40 | binding succeeds exactly when the call fits the signature, else raises `TypeError`; on success every parameter gets its positional argument, else its keyword argument, else its default |
| Wrapper.Fill | src/snake/shifter/wrapper.py:39-40 | the parameters not passed positionally are filled from keywords or defaults, failing exactly when one has neither |
| Wrapper.BindPositional | src/snake/shifter/wrapper.py:39-40 | passing every parameter positionally binds exactly those values |
| Wrapper.BindDefault | src/snake/shifter/wrapper.py:39-40 | leaving out a defaulted argument binds the same values as passing its default |
| Wrapper.BindKeyword | src/snake/shifter/wrapper.py:39-40 | passing a parameter by keyword binds the same values as passing it positionally |
| Wrapper.OmittedDefaultSameKey | src/snake/shifter/wrapper.py:39-41 | a call that omits a defaulted argument gets the same key as one that passes the default explicitly |
| Wrapper.ProtocolShape | src/snake/shifter/wrapper.py:43-55 | the handler is asked `__contains__` first and every request is about the call's key; it is fetched from exactly on a hit, and the body runs exactly on a miss |
| Wrapper.HitReplays | src/snake/shifter/wrapper.py:43-48 | on a hit the body does not run, the entry is fetched once and nothing is stored; a value is returned, an `Exception` wrapper re-raises the object it holds |
| Wrapper.MissReturns | src/snake/shifter/wrapper.py:49-52 | on a miss that returns, the body runs once, its value is stored once and returned unchanged, and nothing is fetched |
| Wrapper.MissRaises | src/snake/shifter/wrapper.py:53-55 | on a miss whose body raises `exc`, `Exception(exc)` is stored and the same `exc` is raised |
| Wrapper.StoresOutcome | src/snake/shifter/wrapper.py:49-55 | on a miss, the last entry handed to the handler describes how the call ended |
| Wrapper.RepeatedCall | src/snake/shifter/wrapper.py:43-55 | a call answered from what an earlier call of the same key stored ends exactly as that call did, without running the body |
| Wrapper.NestedFailure | tests/test_simple_graph.py:123-160 | when `g` calls `f` and `f` raises `exc`, both calls store `Exception(exc)` of the same object and `g` re-raises it |
| Wrapper.Eval | src/snake/shifter/wrapper.py:50 | running a body leaves the active handler's stack as it found it and only adds cache entries to the graph handler; the graph handler stays symmetric; when `Wrapper.Known` gives the body's result on the cache it started with, the body returns that value or raises an exception of that class |
| Wrapper.EvalAdd | src/snake/shifter/wrapper.py:50 | `l + r` in a body evaluates `l` first, stops at the first failure, and otherwise adds the two values, agreeing with `Wrapper.Known`, under the guarantees of `Wrapper.Eval` |
| Wrapper.EvalApply | src/snake/shifter/wrapper.py:50 | a nested call evaluates its arguments, then calls; its result agrees with `Wrapper.Known`, under the guarantees of `Wrapper.Eval` |
| Wrapper.EvalCall | src/snake/shifter/wrapper.py:27 | a call in a body of a function that has no body, or whose `shift` raised so its name was never bound, raises `NameError`; otherwise the wrapper runs; a call `Wrapper.KnownCall` answers (a cached key, a missing fuel or signature error) ends as it says; with the guarantees of `Wrapper.Eval` |
| Wrapper.EvalAll | src/snake/shifter/wrapper.py:50 | the arguments of a nested call are evaluated left to right, one value per argument, the first failure ending it; the values agree with `Wrapper.KnownAll`, under the same guarantees |
| Wrapper.KnownGrows | src/snake/shifter/wrapper.py:43-48 | a body whose result the cache determines has the same result on any cache that only gained entries, so the calls a body makes before a later one cannot change that later call's cached answer |
| Wrapper.KnownAllGrows | src/snake/shifter/wrapper.py:43-48 | the same for a list of call arguments |
| Wrapper.HandlerReadAsWrittenFails | src/snake/shifter/wrapper.py:35 | as written, reading `_handlers` from the class `Context` raises `AttributeError`, whatever the handler stack holds. The names the class body binds are listed by hand in `Context.ContextClassAttributes` (src/snake/shifter/context.py:4-19), since Dafny has no reflection; the list is not every entry of the class dictionary in every Python version, but no version binds `_handlers` on the class |
| Wrapper.Invoke | src/snake/shifter/wrapper.py:33-55 | reads the active handler once; a call that does not fit raises `TypeError`; otherwise the call follows `Protocol`. On a miss the body runs once and its outcome is stored and returned unchanged, and it is the value (or exception class) `Wrapper.Known` gives for the body on the cache the call started with, when that is determined. The null and parents handlers never hit and accept the store (src/snake/shifter/context.py:25-35, tests/test_simple_parents.py:33-46); the children handler does the same unless `__contains__` raises, and then the call raises that error. Under the graph handler the call hits exactly on a cached key, the outcome ends up cached under the key, and a cached entry is replayed (tests/test_simple_graph.py:118-120) |
| Wrapper.Intercept | src/snake/shifter/wrapper.py:43-55 | one intercepted call on the active handler follows `Protocol`; a miss's store is accepted and the body's outcome agrees with `Wrapper.Known`; the answers to `__contains__` and to the store are those of the active handler's model, as in `Wrapper.Invoke` |
| Wrapper.Lookup | src/snake/shifter/wrapper.py:44-48 | a hit fetches the cached entry once and replays it |
| Wrapper.Compute | src/snake/shifter/wrapper.py:49-55 | a miss runs the body and stores its outcome; the store is accepted and pops the key; the graph handler caches the outcome under the key and keeps every earlier entry; the outcome agrees with `Wrapper.Known` on the cache the body started with |
| WrapperExamples.ExamplesShift | tests/test_simple_graph.py:169-175 | `shift` accepts the test functions `f(x)`, `g(x, y)` and the `f(a, b)` of tests/test_simple_funcs.py |
| WrapperExamples.FullKey | src/snake/shifter/wrapper.py:39-41 | a call passing every parameter positionally binds those values and its key holds them, followed by the function |
| WrapperExamples.NullCallExample | tests/test_simple_funcs.py:80-89 | under a handler that never hits, `f(1, 2)` returns 3 after one `__contains__` and one `__setitem__` of 3 under the key, with no `__getitem__` |
| WrapperExamples.PairBodyKnown | tests/test_simple_graph.py:173-175 | on a cache holding `f(1) = 10` and `f(2) = 2`, the body `f(x) + f(y)` of `g` on (1, 2) is 12 |
| WrapperExamples.CallPair | tests/test_simple_graph.py:195 | under a graph handler that has not cached `g(1, 2)` but caches what its body needs, `g(1, 2)` returns 12 and is then cached as 12 |
| WrapperExamples.BumpedCallExample | tests/test_simple_graph.py:186-195 | under the handler with the bumped state `{f(2): 2, f(3): 3, f(1): 10}`, `g(1, 2) == 12`, and 12 is cached under `g(1, 2)` |
| Wrapper.RepeatCall | src/snake/shifter/wrapper.py:43-48 | under the graph handler, a second identical call ends as the first one did (the same value or the same exception object) and only asks `__contains__` and `__getitem__` |

## Findings

| source | as written | input that shows it | evidently intended | confidence | as-written member | corrected member |
|---|---|---|---|---|---|---|
| src/snake/shifter/wrapper.py:35 | `handler = Context._handlers[-1]` looks `_handlers` up on the class `Context`, which has no such attribute; the stack is the module global `_handlers` (src/snake/shifter/context.py:41) | any call of a shifted function, e.g. `f(1, 2)` with `_handlers == [NullHandler()]`: `AttributeError` before the handler is consulted | the top of the module stack, as `get_handler()` returns it (src/snake/shifter/context.py:44-46) | high; not executed | Wrapper.HandlerReadAsWrittenFails | Context.HandlerStack.GetHandler (used by Wrapper.Invoke) |

## Left out

- Signatures are given data (`Keys.Func`), not read with `inspect.signature`. Only positional-or-keyword parameters are modelled; variadic, positional-only and keyword-only parameters are not.
- Keys.MakeKeyType: identifiers are ASCII only. `str.isidentifier` also accepts Unicode letters, which the model refuses with `ValueError`.
- Wrapper.Eval: a body that calls a function whose `@shift` decoration raised gets `NameError`, because that name was never bound. The `ValueError` itself is raised at definition time, which the model does not run.
- GraphHandler.GraphCallHandler.Bump: requires `children` and `parents` to be exact inverses. On hand-edited maps that break this, `list.remove` at tests/test_simple_graph.py:77 can raise `KeyError`, which is not modelled. The attributes are public, but `GraphSpec.ReachableIsValid` shows every state the protocol reaches is such a state. Direct edits of `retvals`, as at tests/test_simple_graph.py:118, keep it.
- The named-tuple class built with `namedtuple` and `type(...)` is modelled by its observable behaviour: field layout, defaults, equality and `repr`. `__hash__` is not modelled: the model's keys are values, and equal values are the same dictionary key.
- `%r` of a value is a parameter `show` of the rendering (`Python.IntRepr` for integers). The sentinel of a parameter without default renders as a fixed string. `%` conversions other than `%r` and `%%` are modelled as `ValueError`; `_repr`'s format never contains one.
- Values passed through shifted functions are Python integers. So the model cannot express a body that returns an `Exception` instance, which the `type(value) is Exception` test at src/snake/shifter/wrapper.py:45 would replay as a raise.
- `raise ... from` at src/snake/shifter/wrapper.py:46 sets `__cause__`; the model keeps only the identity of the raised object.
- `functools.wraps` metadata and the `__key__` attribute (src/snake/shifter/wrapper.py:33, 57) are not modelled; a `Wrapper.Shifted` value carries the key type instead.
- Function bodies are a small expression language: arguments, integer literals, `+`, calls of shifted functions with positional arguments, and `raise`. Any other Python code is out of scope.
- Wrapper.Invoke: Python's recursion limit is modelled as a fuel bound. The fuel runs out at a depth the model chooses, not at Python's actual limit, and then raises `RecursionError`.
- Wrapper.Intercept: `Wrapper.Protocol` includes the `except` paths taken when `handler[key] = retval` itself raises (src/snake/shifter/wrapper.py:51-55). With the four modelled handlers that store cannot fail, because the key is on the stack, so those paths are never taken by `Intercept`.
- Handlers are the four classes of the model (`Context.Handler`). The test doubles `DictCallHandler` and the `MagicMock` handlers of tests/test_simple_funcs.py are not modelled; `WrapperExamples.NullCallExample` uses a `NullHandler` where the test's mock answers `False` and accepts the store. The abstract classes and protocols of src/snake/shifter/abc.py and src/snake/shifter/typing.py have no behaviour and are not modelled either.
- src/snake/shifter/__init__.py is not part of this model. Its `key` helper forwards to `__key__`, and its imports of `CallHandler` and `CallKey` from `.context` do not match context.py. src/snake_shifter/__main__.py, examples/example-rich-tree.py and tests/conftest.py are not part of this model either.
- The handler stack is single-threaded; the thread and coroutine safety noted at src/snake/shifter/context.py:40 is not modelled. `__exit__`'s traceback argument is not modelled.
- Python's set iteration order is left open. `GraphHandler.Extend` appends the elements of a set in an unspecified order, and the loops over sets pick elements in any order.
- The graph tests read `handler.parents[k]` and `handler.children[k]` on `defaultdict`s, and each such read inserts an empty entry. `GraphSpec.Get` reads without inserting. So the check at tests/test_simple_graph.py:110, `key(f, a, b) in handler.children`, which holds only because line 107 inserted that entry, is not restated.
- The graph handler's stack starts empty and top-level calls record no edge (tests/test_simple_graph.py:26-43).
- Wrapper.NestedFailure: the test at tests/test_simple_graph.py:123-160 is stated on the answers of the two nested calls. It is not a run of `Wrapper.Invoke` on a concrete program.
- WrapperExamples.BumpedCallExample: the bumped handler is built with the attributes `GraphExamples.BumpExample` derives for `bump({f(1): 10})`, not by running `g(1, 2)` and `g(1, 3)` through `Wrapper.Invoke` and then `GraphHandler.GraphCallHandler.Bump`, because `Invoke` states the graph handler's cache after a call but not its edge maps.
- Wrapper.Eval: a body's outcome is stated only where `Wrapper.Known` determines it, that is when every call it makes is answered from the cache or fails before reaching the handler. A body that runs another body on a miss is only known to end, with the stack restored and the cache extended. For a failure, the outcome is stated up to the exception's class.
