/**
 * Call keys (src/snake/shifter/key_type.py). `make_key_type(func)` builds a
 * named-tuple type with one field per parameter of `func`, in signature
 * order, followed by a field `func__` whose default is `func` itself. Every
 * field has a default: the declared one, or the `inspect.Parameter.empty`
 * sentinel for a parameter without one. Keys compare as tuples, so two keys
 * are equal exactly when their argument fields and their functions are.
 *
 * `namedtuple` refuses some names (a lambda's `<lambda>`, a parameter
 * starting with `_` or named `func__`) with `ValueError`, and so does
 * `make_key_type`.
 *
 * The signature is given data (the model does not inspect Python functions),
 * parameters are positional-or-keyword, and values are of a type `V`.
 */
module Keys {
  import opened Python

  /** A field value: a Python value, or the `inspect.Parameter.empty` sentinel. */
  datatype PyArg<V> = Val(v: V) | Empty

  /** One parameter of a signature with its default (`Empty` when it has none). */
  datatype Param<V> = Param(name: string, default: PyArg<V>)

  /**
   * A Python function object: `id` stands for its identity (two functions
   * with the same name and signature are still different objects), then its
   * `__module__`, `__name__` and signature.
   */
  datatype Func<V> = Func(id: nat, modname: string, name: string, params: seq<Param<V>>)

  /**
   * The key type `make_key_type(func)` returns. It exposes the function as
   * `__func__` and its signature as `__signature__`; its `__module__` and
   * class name are those of the function.
   */
  datatype KeyType<V> = KeyType(func: Func<V>)

  /** An instance of a key type: the parameter fields, then `func__`. */
  datatype CallKey<V> = CallKey(args: seq<PyArg<V>>, func: Func<V>)

  /** The name the trailing identity field gets. */
  const FuncField: string := "func__"

  /** Python's keywords (`keyword.kwlist`): no type or field name may be one. */
  const Keywords: set<string> := {
    "False", "None", "True", "and", "as", "assert", "async", "await", "break",
    "class", "continue", "def", "del", "elif", "else", "except", "finally",
    "for", "from", "global", "if", "import", "in", "is", "lambda", "nonlocal",
    "not", "or", "pass", "raise", "return", "try", "while", "with", "yield"}

  /** A character that may start an identifier: an ASCII letter or `_`. */
  predicate IdStart(c: char)
  {
    'a' <= c <= 'z' || 'A' <= c <= 'Z' || c == '_'
  }

  /** `str.isidentifier()` over ASCII: a letter or `_`, then letters, digits or `_`. */
  predicate IsIdentifier(s: string)
  {
    |s| > 0 && IdStart(s[0]) && forall i :: 1 <= i < |s| ==> IdStart(s[i]) || '0' <= s[i] <= '9'
  }

  /** A name `namedtuple` accepts as a type name or a field name. */
  predicate ValidName(s: string)
  {
    IsIdentifier(s) && s !in Keywords
  }

  /**
   * The checks `namedtuple(typename, fields)` makes before building a class
   * (without `rename`): every name is an identifier and no keyword, no field
   * starts with `_`, and no field is named twice.
   */
  predicate NamedTupleAccepts(typename: string, fields: seq<string>)
  {
    && ValidName(typename)
    && (forall i :: 0 <= i < |fields| ==> ValidName(fields[i]) && fields[i][0] != '_')
    && (forall i, j :: 0 <= i < j < |fields| ==> fields[i] != fields[j])
  }

  /**
   * `make_key_type(func)`: a named tuple named after the function, with the
   * parameter names and `func__` as fields. `namedtuple` raises `ValueError`
   * when it refuses those names.
   */
  function MakeKeyType<V>(func: Func<V>): (r: Result<KeyType<V>>)
    ensures r.Ok? ==> r.value.func == func
    ensures r.Err? ==> r.kind == ValueError
  {
    if NamedTupleAccepts(func.name, FieldNames(KeyType(func))) then Ok(KeyType(func)) else Err(ValueError)
  }

  /**
   * `make_key_type` succeeds exactly when the function's name is an
   * identifier and no keyword, and its parameter names are distinct
   * identifiers, no keyword, not starting with `_` and not `func__`. So
   * `shift(lambda a: a)` (named `<lambda>`), `def f(_x)` and `def f(func__)`
   * all raise `ValueError`.
   */
  lemma MakeKeyTypeAccepts<V>(func: Func<V>)
    ensures MakeKeyType(func).Ok? <==>
      && ValidName(func.name)
      && (forall i :: 0 <= i < |func.params| ==>
            ValidName(func.params[i].name) && func.params[i].name[0] != '_' && func.params[i].name != FuncField)
      && (forall i, j :: 0 <= i < j < |func.params| ==> func.params[i].name != func.params[j].name)
  {
    var ps := func.params;
    var fields := FieldNames(KeyType(func));
    assert ValidName(FuncField) by {
      assert IsIdentifier(FuncField);
    }
    assert forall i :: 0 <= i < |ps| ==> fields[i] == ps[i].name;
    assert fields[|ps|] == FuncField;
    if MakeKeyType(func).Ok? {
      forall i | 0 <= i < |ps|
        ensures ps[i].name != FuncField
      {
        assert fields[i] != fields[|ps|];
      }
    }
  }

  /** A lambda's `__name__` is `<lambda>`, which is no identifier: `shift` cannot build its key type. */
  lemma LambdaRefused<V>(func: Func<V>)
    requires func.name == "<lambda>"
    ensures MakeKeyType(func) == Err(ValueError)
  {
    assert !IdStart(func.name[0]);
  }

  /** The parameter names of a signature, in order. */
  function Names<V>(params: seq<Param<V>>): (names: seq<string>)
    ensures |names| == |params|
    ensures forall i :: 0 <= i < |params| ==> names[i] == params[i].name
  {
    seq(|params|, i requires 0 <= i < |params| => params[i].name)
  }

  /** The field names of the named tuple: the parameters, then `func__`. */
  function FieldNames<V>(kt: KeyType<V>): (names: seq<string>)
    ensures |names| == |kt.func.params| + 1
    ensures forall i :: 0 <= i < |kt.func.params| ==> names[i] == kt.func.params[i].name
    ensures names[|names| - 1] == FuncField
  {
    Names(kt.func.params) + [FuncField]
  }

  /** The defaults of the parameter fields, in order (`func__` defaults to the function). */
  function Defaults<V>(params: seq<Param<V>>): (ds: seq<PyArg<V>>)
    ensures |ds| == |params|
    ensures forall i :: 0 <= i < |params| ==> ds[i] == params[i].default
  {
    seq(|params|, i requires 0 <= i < |params| => params[i].default)
  }

  /**
   * `key_type(*args)`: the given values fill the first fields, the remaining
   * parameter fields take their defaults and `func__` takes the function.
   */
  function New<V>(kt: KeyType<V>, args: seq<PyArg<V>>): (k: CallKey<V>)
    requires |args| <= |kt.func.params|
  {
    CallKey(args + Defaults(kt.func.params)[|args|..], kt.func)
  }

  /** The layout of a key: one field per parameter in order, then the function. */
  lemma NewLayout<V>(kt: KeyType<V>, args: seq<PyArg<V>>, i: nat)
    requires |args| <= |kt.func.params|
    ensures |New(kt, args).args| == |kt.func.params|
    ensures New(kt, args).func == kt.func
    ensures i < |args| ==> New(kt, args).args[i] == args[i]
    ensures |args| <= i < |kt.func.params| ==> New(kt, args).args[i] == kt.func.params[i].default
  {
  }

  /**
   * Omitting a trailing argument is the same as passing its default
   * explicitly: both build the same key.
   */
  lemma {:induction false} OmittedIsDefault<V>(kt: KeyType<V>, args: seq<PyArg<V>>)
    requires |args| < |kt.func.params|
    ensures New(kt, args) == New(kt, args + [kt.func.params[|args|].default])
  {
    var ds := Defaults(kt.func.params);
    assert ds[|args|..] == [ds[|args|]] + ds[|args| + 1..];
    assert args + ds[|args|..] == (args + [ds[|args|]]) + ds[|args| + 1..];
  }

  /**
   * Keys compare as tuples of their fields, `func__` included: two keys are
   * equal exactly when they come from the same function and their argument
   * fields agree, so equal calls of one function share a key and the same
   * arguments passed to two functions give two keys.
   */
  lemma KeyEquality<V>(kt1: KeyType<V>, a1: seq<PyArg<V>>, kt2: KeyType<V>, a2: seq<PyArg<V>>)
    requires |a1| <= |kt1.func.params| && |a2| <= |kt2.func.params|
    ensures New(kt1, a1) == New(kt2, a2) <==>
              kt1.func == kt2.func && New(kt1, a1).args == New(kt2, a2).args
  {
  }

  /** Keys of two functions with the same arguments are two separate dictionary entries. */
  lemma {:induction false} DistinctEntries<V, T>(kt1: KeyType<V>, kt2: KeyType<V>, args: seq<PyArg<V>>, x: T, y: T)
    requires kt1.func != kt2.func
    requires |args| <= |kt1.func.params| && |args| <= |kt2.func.params|
    ensures var d := map[New(kt1, args) := x][New(kt2, args) := y];
      |d| == 2 && d[New(kt1, args)] == x && d[New(kt2, args)] == y
  {
    var k1, k2 := New(kt1, args), New(kt2, args);
    assert k1 != k2 by {
      assert k1.func == kt1.func && k2.func == kt2.func;
    }
    var d := map[k1 := x][k2 := y];
    assert d.Keys == {k1, k2};
  }

  // ---------------------------------------------------------------------
  // Rendering: `module.name(p1=v1, p2=v2)`
  // ---------------------------------------------------------------------

  /** `", ".join(parts)`. */
  function Join(parts: seq<string>): string
  {
    if |parts| == 0 then ""
    else if |parts| == 1 then parts[0]
    else parts[0] + ", " + Join(parts[1..])
  }

  /** `"(" + ", ".join(f"{name}=%r" for name in names) + ")"`: the format string of `_repr`. */
  function ReprFormat(names: seq<string>): string
  {
    "(" + Join(Placeholders(names)) + ")"
  }

  function Placeholders(names: seq<string>): (ps: seq<string>)
    ensures |ps| == |names|
    ensures forall i :: 0 <= i < |names| ==> ps[i] == names[i] + "=%r"
  {
    seq(|names|, i requires 0 <= i < |names| => names[i] + "=%r")
  }

  /**
   * `fmt % values` for a format whose only conversions are `%r` and `%%`:
   * each `%r` takes the rendering of the next value. Too few values or too
   * many is a `TypeError`, a `%` followed by anything else a `ValueError`.
   */
  function Interpolate(fmt: string, shown: seq<string>): Result<string>
    decreases |fmt|
  {
    if |fmt| == 0 then
      if shown == [] then Ok("") else Err(TypeError)
    else if fmt[0] != '%' then
      match Interpolate(fmt[1..], shown)
      case Ok(rest) => Ok([fmt[0]] + rest)
      case Err(e) => Err(e)
    else if |fmt| == 1 then Err(ValueError)
    else if fmt[1] == '%' then
      match Interpolate(fmt[2..], shown)
      case Ok(rest) => Ok("%" + rest)
      case Err(e) => Err(e)
    else if fmt[1] == 'r' then
      if shown == [] then Err(TypeError)
      else
        match Interpolate(fmt[2..], shown[1..])
        case Ok(rest) => Ok(shown[0] + rest)
        case Err(e) => Err(e)
    else Err(ValueError)
  }

  /** The `repr` of the `inspect.Parameter.empty` sentinel, which is a class. */
  const EmptyRepr: string := "<class 'inspect._empty'>"

  /** `%r` of one field, given the `repr` of values. */
  function ShowArg<V>(show: V -> string, a: PyArg<V>): string
  {
    match a
    case Val(v) => show(v)
    case Empty => EmptyRepr
  }

  function ShowArgs<V>(show: V -> string, args: seq<PyArg<V>>): (ss: seq<string>)
    ensures |ss| == |args|
    ensures forall i :: 0 <= i < |args| ==> ss[i] == ShowArg(show, args[i])
  {
    seq(|args|, i requires 0 <= i < |args| => ShowArg(show, args[i]))
  }

  /**
   * `_repr`: the module, a dot and the class name (the function's name),
   * then the format applied to every field but `func__`.
   */
  function Repr<V>(k: CallKey<V>, show: V -> string): Result<string>
  {
    match Interpolate(ReprFormat(Names(k.func.params)), ShowArgs(show, k.args))
    case Ok(s) => Ok(k.func.modname + "." + k.func.name + s)
    case Err(e) => Err(e)
  }

  /** The rendering `_repr` is meant to produce, written directly. */
  function Display<V>(k: CallKey<V>, show: V -> string): string
    requires |k.args| == |k.func.params|
  {
    k.func.modname + "." + k.func.name + "(" + Join(Assignments(Names(k.func.params), ShowArgs(show, k.args))) + ")"
  }

  function Assignments(names: seq<string>, shown: seq<string>): (ps: seq<string>)
    requires |names| == |shown|
    ensures |ps| == |names|
    ensures forall i :: 0 <= i < |names| ==> ps[i] == names[i] + "=" + shown[i]
  {
    seq(|names|, i requires 0 <= i < |names| => names[i] + "=" + shown[i])
  }

  /** A string without `%`: it passes through a `%` format unchanged. */
  predicate Literal(s: string)
  {
    forall i :: 0 <= i < |s| ==> s[i] != '%'
  }

  /** `p` in front of a successful result. */
  function Prefix(p: string, r: Result<string>): Result<string>
  {
    match r
    case Ok(s) => Ok(p + s)
    case Err(e) => Err(e)
  }

  lemma PrefixPrefix(p: string, q: string, r: Result<string>)
    ensures Prefix(p, Prefix(q, r)) == Prefix(p + q, r)
  {
    match r
    case Ok(s) => assert p + (q + s) == (p + q) + s;
    case Err(e) =>
  }

  /** Literal text in front of a format is copied in front of its result. */
  lemma {:induction false} InterpolateLiteral(lit: string, fmt: string, shown: seq<string>)
    requires Literal(lit)
    ensures Interpolate(lit + fmt, shown) == Prefix(lit, Interpolate(fmt, shown))
    decreases |lit|
  {
    if |lit| > 0 {
      assert (lit + fmt)[0] == lit[0] && (lit + fmt)[1..] == lit[1..] + fmt;
      InterpolateLiteral(lit[1..], fmt, shown);
      PrefixPrefix([lit[0]], lit[1..], Interpolate(fmt, shown));
      assert [lit[0]] + lit[1..] == lit;
    } else {
      assert lit + fmt == fmt;
      match Interpolate(fmt, shown)
      case Ok(s) => assert lit + s == s;
      case Err(e) =>
    }
  }

  /** A `%r` conversion takes the next rendered value. */
  lemma InterpolateSlot(fmt: string, shown: seq<string>)
    requires shown != []
    ensures Interpolate("%r" + fmt, shown) == Prefix(shown[0], Interpolate(fmt, shown[1..]))
  {
    assert ("%r" + fmt)[2..] == fmt;
  }

  lemma LiteralConcat(a: string, b: string)
    requires Literal(a) && Literal(b)
    ensures Literal(a + b)
  {
    forall i | 0 <= i < |a + b| ensures (a + b)[i] != '%' {
      if i >= |a| {
        assert (a + b)[i] == b[i - |a|];
      }
    }
  }

  lemma JoinCons(parts: seq<string>)
    requires |parts| > 1
    ensures Join(parts) == parts[0] + ", " + Join(parts[1..])
  {
  }

  /** What follows the first `%r` of the format of `names`, with `tail` after it. */
  function FormatRest(names: seq<string>, tail: string): string
    requires |names| > 0
  {
    if |names| == 1 then tail else ", " + (Join(Placeholders(names[1..])) + tail)
  }

  /** What follows the first rendered value of the direct rendering, with `tail` after it. */
  function RenderedRest(names: seq<string>, shown: seq<string>, tail: string): string
    requires |names| == |shown| > 0
  {
    if |names| == 1 then tail else ", " + (Join(Assignments(names[1..], shown[1..])) + tail)
  }

  lemma PlaceholdersSplit(names: seq<string>, tail: string)
    requires |names| > 0
    ensures Join(Placeholders(names)) + tail == (names[0] + "=") + ("%r" + FormatRest(names, tail))
  {
    if |names| > 1 {
      JoinCons(Placeholders(names));
      assert Placeholders(names)[1..] == Placeholders(names[1..]);
    }
  }

  lemma AssignmentsSplit(names: seq<string>, shown: seq<string>, tail: string)
    requires |names| == |shown| > 0
    ensures Join(Assignments(names, shown)) + tail == (names[0] + "=") + (shown[0] + RenderedRest(names, shown, tail))
  {
    if |names| > 1 {
      JoinCons(Assignments(names, shown));
      assert Assignments(names, shown)[1..] == Assignments(names[1..], shown[1..]);
    }
  }

  /** The format of `names` consumes one rendered value per name and yields the direct rendering. */
  lemma {:induction false} InterpolatePlaceholders(names: seq<string>, shown: seq<string>, tail: string)
    requires |names| == |shown| > 0
    requires forall i :: 0 <= i < |names| ==> Literal(names[i])
    requires Literal(tail)
    ensures Interpolate(Join(Placeholders(names)) + tail, shown) == Ok(Join(Assignments(names, shown)) + tail)
    decreases |names|
  {
    var head := names[0] + "=";
    LiteralConcat(names[0], "=");
    var after := FormatRest(names, tail);
    var rendered := RenderedRest(names, shown, tail);
    if |names| == 1 {
      InterpolateLiteral(tail, "", shown[1..]);
      assert tail + "" == tail;
    } else {
      InterpolatePlaceholders(names[1..], shown[1..], tail);
      InterpolateLiteral(", ", Join(Placeholders(names[1..])) + tail, shown[1..]);
    }
    assert Interpolate(after, shown[1..]) == Ok(rendered);
    PlaceholdersSplit(names, tail);
    AssignmentsSplit(names, shown, tail);
    InterpolateLiteral(head, "%r" + after, shown);
    InterpolateSlot(after, shown);
  }

  /**
   * When no parameter name contains `%` (Python identifiers never do), the
   * `%`-format of `_repr` renders a key as `module.name(p1=v1, p2=v2)`, with
   * the parameters in signature order and `func__` left out.
   */
  lemma {:induction false} ReprIsDisplay<V>(k: CallKey<V>, show: V -> string)
    requires |k.args| == |k.func.params|
    requires forall i :: 0 <= i < |k.func.params| ==> Literal(k.func.params[i].name)
    ensures Repr(k, show) == Ok(Display(k, show))
  {
    var names := Names(k.func.params);
    var shown := ShowArgs(show, k.args);
    var rendered := "(" + Join(Assignments(names, shown)) + ")";
    assert Interpolate(ReprFormat(names), shown) == Ok(rendered) by {
      if |names| == 0 {
        assert ReprFormat(names) == "()" + "" && rendered == "()";
        InterpolateLiteral("()", "", shown);
      } else {
        InterpolatePlaceholders(names, shown, ")");
        InterpolateLiteral("(", Join(Placeholders(names)) + ")", shown);
        assert ReprFormat(names) == "(" + (Join(Placeholders(names)) + ")");
        assert rendered == "(" + (Join(Assignments(names, shown)) + ")");
      }
    }
    assert Display(k, show) == k.func.modname + "." + k.func.name + rendered;
  }

  /** The rendering checked by the repository's test of `_repr` (tests/test_key_type.py:44). */
  lemma ReprExample()
    ensures var f := Func(0, "tests.test_key_type", "f", [Param("a", Empty), Param("b", Empty)]);
      && MakeKeyType(f) == Ok(KeyType(f))
      && Repr(New(KeyType(f), [Val(1), Val(2)]), IntRepr) == Ok("tests.test_key_type.f(a=1, b=2)")
  {
    var f := Func(0, "tests.test_key_type", "f", [Param("a", Empty), Param("b", Empty)]);
    ExampleAccepted(f);
    var k := New(KeyType(f), [Val(1), Val(2)]);
    assert k.args == [Val(1), Val(2)];
    ExampleFields(k);
    ReprIsDisplay(k, IntRepr);
    ExampleDisplay(k);
  }

  lemma ExampleAccepted(f: Func<int>)
    requires f == Func(0, "tests.test_key_type", "f", [Param("a", Empty), Param("b", Empty)])
    ensures MakeKeyType(f) == Ok(KeyType(f))
  {
    var fields := FieldNames(KeyType(f));
    assert fields == ["a", "b", "func__"];
    LetterName('f');
    LetterName('a');
    LetterName('b');
    FuncFieldName();
    assert NamedTupleAccepts("f", fields);
  }

  /** One lower-case letter is a valid name: every keyword is longer. */
  lemma LetterName(c: char)
    requires 'a' <= c <= 'z'
    ensures ValidName([c]) && [c][0] != '_'
  {
  }

  lemma FuncFieldName()
    ensures ValidName(FuncField) && FuncField[0] != '_'
  {
    assert IsIdentifier(FuncField);
  }

  lemma ExampleDisplay(k: CallKey<int>)
    requires k.func == Func(0, "tests.test_key_type", "f", [Param("a", Empty), Param("b", Empty)])
    requires k.args == [Val(1), Val(2)]
    ensures Display(k, IntRepr) == "tests.test_key_type.f(a=1, b=2)"
  {
    ExampleFields(k);
    assert Display(k, IntRepr) == "tests.test_key_type" + "." + "f" + "(" + "a=1, b=2" + ")";
    assert "tests.test_key_type" + "." + "f" + "(" + "a=1, b=2" + ")" == "tests.test_key_type.f(a=1, b=2)";
  }

  lemma ExampleFields(k: CallKey<int>)
    requires k.args == [Val(1), Val(2)] && k.func.params == [Param("a", Empty), Param("b", Empty)]
    ensures forall i :: 0 <= i < |k.func.params| ==> Literal(k.func.params[i].name)
    ensures Join(Assignments(Names(k.func.params), ShowArgs(IntRepr, k.args))) == "a=1, b=2"
  {
    forall i | 0 <= i < |k.func.params| ensures Literal(k.func.params[i].name) {
    }
    assert IntRepr(1) == "1" && IntRepr(2) == "2";
    assert Names(k.func.params) == ["a", "b"];
    assert ShowArgs(IntRepr, k.args) == ["1", "2"];
    var parts := Assignments(["a", "b"], ["1", "2"]);
    assert parts[0] == "a" + "=" + "1" == "a=1";
    assert parts[1] == "b" + "=" + "2" == "b=2";
    assert parts == ["a=1", "b=2"];
  }
}
