/** The error values of the core and the two standard-library walks over them:
    `errors.Is` (used by the cache coordinator to recognise a miss) and
    `errors.As` (used by the retry engine to recognise an abort). */
module Errors {
  import opened Wrappers

  /** Why strconv rejected a number. */
  datatype NumReason = Syntax | OutOfRange

  datatype Error =
    | NotFound                                          // cache.ErrorNotFound
    | Text(msg: string)                                 // errors.New / fmt.Errorf without %w
    | Wrapped(msg: string, inner: Error)                // an error whose Unwrap yields inner
    | Aborted(cause: Option<Error>)                     // retry.abort; None is a nil cause
    | NumError(fn: string, num: string, reason: NumReason) // strconv.NumError

  /** errors.Is(err, cache.ErrorNotFound): the sentinel somewhere on the wrap chain.
      An abort does not unwrap, so the walk stops there. */
  predicate IsNotFound(e: Error) {
    match e
    case NotFound => true
    case Wrapped(_, inner) => IsNotFound(inner)
    case _ => false
  }

  /** errors.As(err, &ab) for *abort: the first abort on the wrap chain, with its cause. */
  function FindAbort(e: Error): (r: Option<Option<Error>>)
    ensures e.Aborted? ==> r == Some(e.cause)
    ensures e.NotFound? || e.Text? || e.NumError? ==> r.None?
  {
    match e
    case Aborted(cause) => Some(cause)
    case Wrapped(_, inner) => FindAbort(inner)
    case _ => None
  }

  function ReasonText(r: NumReason): string {
    match r
    case Syntax => "invalid syntax"
    case OutOfRange => "value out of range"
  }

  /** The text `Error()` returns for each kind of error. */
  function Message(e: Error): string {
    match e
    case NotFound => "Key not found"
    case Text(m) => m
    case Wrapped(m, _) => m
    case Aborted(None) => "retry abort"
    case Aborted(Some(c)) => "retry abort, error: " + Message(c)
    // Go quotes num with strconv.Quote; here it is put between plain double quotes,
    // without escaping quotes or non-printable characters inside it.
    case NumError(fn, num, reason) => "strconv." + fn + ": parsing \"" + num + "\": " + ReasonText(reason)
  }

  /** Wrapping keeps the sentinel visible to errors.Is, however deep the chain. */
  lemma {:induction false} WrapKeepsNotFound(e: Error, msgs: seq<string>)
    requires IsNotFound(e)
    ensures IsNotFound(WrapAll(e, msgs))
  {
    if msgs != [] {
      WrapKeepsNotFound(e, msgs[1..]);
    }
  }

  /** Wrapping keeps an abort visible to errors.As, with the same cause. */
  lemma {:induction false} WrapKeepsAbort(e: Error, msgs: seq<string>)
    ensures FindAbort(WrapAll(e, msgs)) == FindAbort(e)
  {
    if msgs != [] {
      WrapKeepsAbort(e, msgs[1..]);
    }
  }

  /** `e` wrapped once per message, the first message outermost. */
  function WrapAll(e: Error, msgs: seq<string>): Error
  {
    if msgs == [] then e else Wrapped(msgs[0], WrapAll(e, msgs[1..]))
  }
}
