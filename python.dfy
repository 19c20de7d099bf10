/**
 * The Python run-time notions the rest of the model needs: exception objects
 * (whose identity matters, since a cached failure re-raises the very object
 * the function raised), the two ways a call can end, and the entry a handler
 * receives for a finished call.
 */
module Python {

  /** `None`, or a present value. */
  datatype Option<T> = None | Some(value: T)

  /** The built-in exception classes the modelled code can raise. */
  datatype ErrorKind =
    | IndexError          // `list.pop()` or `list[-1]` on an empty list
    | KeyError            // `dict[key]` on an absent key, `set.remove` of an absent element
    | NotImplementedError // `__getitem__` of handlers that never answer
    | TypeError           // a call that does not fit the signature; `%` with the wrong number of values
    | ValueError          // an unsupported conversion in a `%` format
    | NameError           // a name the function body does not have
    | RecursionError      // the interpreter's recursion limit
    | RuntimeError        // what the example function bodies raise
    | AttributeError      // an attribute the object does not have

  /** A raised exception object; two errors are "the same" when they are the same object. */
  class PyError {
    const kind: ErrorKind

    constructor (kind: ErrorKind)
      ensures this.kind == kind
    {
      this.kind := kind;
    }
  }

  /** How a call ends: it returns a value or raises an exception object. */
  datatype Outcome<T> = Success(value: T) | Failure(error: PyError)

  /** A computation that fails with a fresh exception of a known class. */
  datatype Result<T> = Ok(value: T) | Err(kind: ErrorKind)

  /**
   * What the wrapper hands a handler for a finished call: the return value,
   * or `Exception(exc)`, a plain `Exception` whose only argument is the
   * exception `exc` the call raised. Values are Python integers.
   */
  datatype Entry = Value(v: int) | Wrapped(error: PyError)

  /** `repr` of a Python integer: its decimal digits, with a leading `-` when negative. */
  function IntRepr(n: int): (s: string)
    ensures |s| > 0
  {
    if n < 0 then "-" + Digits(-n) else Digits(n)
  }

  function Digits(n: nat): (s: string)
    ensures |s| > 0
    decreases n
  {
    if n < 10 then ["0123456789"[n]] else Digits(n / 10) + ["0123456789"[n % 10]]
  }

  /** The entry the wrapper stores for a call that ended with `o`. */
  function EntryOf(o: Outcome<int>): (e: Entry)
    ensures e.Value? <==> o.Success?
    ensures o.Success? ==> e.v == o.value
    ensures o.Failure? ==> e.error == o.error
  {
    match o
    case Success(v) => Value(v)
    case Failure(err) => Wrapped(err)
  }

  /**
   * What the wrapper does with an entry fetched on a cache hit: an
   * `Exception` wrapper re-raises the exception it holds, anything else is
   * returned.
   */
  function Replay(e: Entry): (o: Outcome<int>)
    ensures EntryOf(o) == e
  {
    match e
    case Value(v) => Success(v)
    case Wrapped(err) => Failure(err)
  }

  /** Storing an outcome and replaying it gives the outcome back. */
  lemma ReplayEntryOf(o: Outcome<int>)
    ensures Replay(EntryOf(o)) == o
  {
  }
}
