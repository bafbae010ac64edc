/** The retry engine (retry/retry.go): option defaulting, the abort wrapper and
    the loop that calls an operation until it succeeds, aborts or times out.

    Time is not modelled. The operation is an oracle: `op(i)` is what its i-th
    call returns (None for a nil error). The wall-clock deadline is `budget`, the
    number of loop iterations that begin before the timer fires; the timer
    never un-fires, so every later iteration sees it too. The jittered backoff
    durations are an oracle as well: `durations(k)` is what the k-th call of
    Duration() returns. */
module Retry {
  import opened Wrappers
  import opened Errors

  /** time.Duration, in nanoseconds. */
  type Duration = int

  const Millisecond: Duration := 1_000_000
  const Second: Duration := 1000 * Millisecond
  const Minute: Duration := 60 * Second

  datatype Options = Options(
    initialInterval: Duration,
    maxInterval: Duration,
    timeout: Duration,
    callback: bool,      // whether a callback is set (a nil func otherwise)
    backoff: bool)

  /** The option setters, each assigning one field. */
  datatype Setter =
    | InitialInterval(initial: Duration)
    | MaxInterval(max: Duration)
    | Timeout(timeout: Duration)
    | Callback(present: bool)
    | Backoff(on: bool)

  /** &Options{Backoff: true}, before any setter runs. */
  const Initial := Options(0, 0, 0, false, true)

  function Apply(o: Options, s: Setter): Options {
    match s
    case InitialInterval(d) => o.(initialInterval := d)
    case MaxInterval(d) => o.(maxInterval := d)
    case Timeout(d) => o.(timeout := d)
    case Callback(p) => o.(callback := p)
    case Backoff(b) => o.(backoff := b)
  }

  function ApplyAll(o: Options, setters: seq<Setter>): Options
    decreases |setters|
  {
    if setters == [] then o else ApplyAll(Apply(o, setters[0]), setters[1..])
  }

  /** Non-positive durations fall back to 100ms, 1s and 1 minute. */
  function WithDefaults(o: Options): (r: Options)
    ensures r.initialInterval > 0 && r.maxInterval > 0 && r.timeout > 0
    ensures o.initialInterval > 0 ==> r.initialInterval == o.initialInterval
    ensures o.initialInterval <= 0 ==> r.initialInterval == 100 * Millisecond
    ensures o.maxInterval > 0 ==> r.maxInterval == o.maxInterval
    ensures o.maxInterval <= 0 ==> r.maxInterval == Second
    ensures o.timeout > 0 ==> r.timeout == o.timeout
    ensures o.timeout <= 0 ==> r.timeout == Minute
    ensures r.callback == o.callback && r.backoff == o.backoff
  {
    Options(
      if o.initialInterval <= 0 then 100 * Millisecond else o.initialInterval,
      if o.maxInterval <= 0 then Second else o.maxInterval,
      if o.timeout <= 0 then Minute else o.timeout,
      o.callback,
      o.backoff)
  }

  /** The options Retry runs with. */
  function Resolve(setters: seq<Setter>): Options {
    WithDefaults(ApplyAll(Initial, setters))
  }

  /** The setters run in order on the initial options, then the defaults are applied. */
  method Configure(setters: seq<Setter>) returns (opts: Options)
    ensures opts == Resolve(setters)
  {
    opts := Initial;
    for i := 0 to |setters|
      invariant ApplyAll(opts, setters[i..]) == ApplyAll(Initial, setters)
    {
      assert setters[i..][1..] == setters[i + 1..];
      opts := Apply(opts, setters[i]);
    }
    if opts.initialInterval <= 0 {
      opts := opts.(initialInterval := 100 * Millisecond);
    }
    if opts.maxInterval <= 0 {
      opts := opts.(maxInterval := Second);
    }
    if opts.timeout <= 0 {
      opts := opts.(timeout := Minute);
    }
  }

  /** The last value a kind of setter assigns, searched from the end. */
  function LastInitial(s: seq<Setter>): Option<Duration> {
    if s == [] then None
    else if s[|s| - 1].InitialInterval? then Some(s[|s| - 1].initial) else LastInitial(s[..|s| - 1])
  }

  function LastMax(s: seq<Setter>): Option<Duration> {
    if s == [] then None
    else if s[|s| - 1].MaxInterval? then Some(s[|s| - 1].max) else LastMax(s[..|s| - 1])
  }

  function LastTimeout(s: seq<Setter>): Option<Duration> {
    if s == [] then None
    else if s[|s| - 1].Timeout? then Some(s[|s| - 1].timeout) else LastTimeout(s[..|s| - 1])
  }

  function LastBackoff(s: seq<Setter>): Option<bool> {
    if s == [] then None
    else if s[|s| - 1].Backoff? then Some(s[|s| - 1].on) else LastBackoff(s[..|s| - 1])
  }

  function PositiveOr(d: Option<Duration>, default: Duration): Duration {
    if d.Some? && d.value > 0 then d.value else default
  }

  lemma {:induction false} ApplyAllSnoc(o: Options, s: seq<Setter>)
    requires s != []
    ensures ApplyAll(o, s) == Apply(ApplyAll(o, s[..|s| - 1]), s[|s| - 1])
    decreases |s|
  {
    if |s| > 1 {
      assert s[1..][..|s[1..]| - 1] == s[..|s| - 1][1..];
      ApplyAllSnoc(Apply(o, s[0]), s[1..]);
    }
  }

  /** Each resolved option is the last value a setter gave it when that is
      positive, and its default otherwise; backoff stays on unless a setter
      turns it off last. */
  lemma {:induction false} ResolveLastWins(s: seq<Setter>)
    ensures Resolve(s).initialInterval == PositiveOr(LastInitial(s), 100 * Millisecond)
    ensures Resolve(s).maxInterval == PositiveOr(LastMax(s), Second)
    ensures Resolve(s).timeout == PositiveOr(LastTimeout(s), Minute)
    ensures Resolve(s).backoff == (LastBackoff(s) != Some(false))
  {
    LastValues(s);
  }

  lemma {:induction false} LastValues(s: seq<Setter>)
    ensures ApplyAll(Initial, s).initialInterval == (if LastInitial(s).Some? then LastInitial(s).value else 0)
    ensures ApplyAll(Initial, s).maxInterval == (if LastMax(s).Some? then LastMax(s).value else 0)
    ensures ApplyAll(Initial, s).timeout == (if LastTimeout(s).Some? then LastTimeout(s).value else 0)
    ensures ApplyAll(Initial, s).backoff == (if LastBackoff(s).Some? then LastBackoff(s).value else true)
  {
    if s != [] {
      ApplyAllSnoc(Initial, s);
      LastValues(s[..|s| - 1]);
    }
  }

  /** ErrorRetryTimeout, and the wrapped form Retry returns for it. */
  const ErrorRetryTimeout := Text("retry timeout")
  const TimeoutError := Wrapped("retry timeout", ErrorRetryTimeout)

  /** Abort: wrap an error (or nil) so that Retry stops and returns it. */
  function Abort(err: Option<Error>): (e: Error)
    ensures FindAbort(e) == Some(err)
    ensures err.None? ==> Message(e) == "retry abort"
    ensures err.Some? ==> Message(e) == "retry abort, error: " + Message(err.value)
  {
    Aborted(err)
  }

  /** One callback invocation: the failing error and the sleep that follows. */
  datatype Notice = Notice(err: Error, sleep: Duration)

  /** What Retry returns, how many times it called the operation, and the
      callback invocations in order. */
  datatype Outcome = Outcome(err: Option<Error>, attempts: nat, notices: seq<Notice>)

  /** An error that is neither nil nor carries an abort: the loop continues. */
  predicate Ordinary(r: Option<Error>) {
    r.Some? && FindAbort(r.value).None?
  }

  /** The sleep after the i-th failure (the i-th Duration() call), 0 without backoff. */
  function SleepAt(opts: Options, durations: nat -> Duration, i: nat): Duration {
    if opts.backoff then durations(i) else 0
  }

  /** The loop from iteration i on, as a recursive specification. */
  function Run(op: nat -> Option<Error>, opts: Options, budget: nat, durations: nat -> Duration, i: nat): Outcome
    decreases budget - i
  {
    if i >= budget then Outcome(Some(TimeoutError), i, [])
    else
      match op(i)
      case None => Outcome(None, i + 1, [])
      case Some(e) =>
        match FindAbort(e)
        case Some(cause) => Outcome(cause, i + 1, [])
        case None =>
          var rest := Run(op, opts, budget, durations, i + 1);
          var note := if opts.callback then [Notice(e, SleepAt(opts, durations, i))] else [];
          rest.(notices := note + rest.notices)
  }

  /** Retry: call op until it returns nil, returns an abort, or the deadline has
      passed at the top of an iteration; report every ordinary failure to the
      callback with the sleep that follows it. */
  method Retry(op: nat -> Option<Error>, setters: seq<Setter>, budget: nat, durations: nat -> Duration)
    returns (err: Option<Error>, attempts: nat, notices: seq<Notice>)
    ensures Outcome(err, attempts, notices) == Run(op, Resolve(setters), budget, durations, 0)
  {
    var opts := Configure(setters);
    err, attempts, notices := Loop(op, opts, budget, durations);
  }

  /** The `for { select ... }` loop of Retry, with the options already resolved. */
  method Loop(op: nat -> Option<Error>, opts: Options, budget: nat, durations: nat -> Duration)
    returns (err: Option<Error>, attempts: nat, notices: seq<Notice>)
    ensures Outcome(err, attempts, notices) == Run(op, opts, budget, durations, 0)
  {
    ghost var whole := Run(op, opts, budget, durations, 0);
    notices := [];
    var i: nat := 0;
    while true
      invariant i <= budget
      invariant var rest := Run(op, opts, budget, durations, i);
        whole == Outcome(rest.err, rest.attempts, notices + rest.notices)
      decreases budget - i
    {
      if i >= budget {
        // case <-timeout
        return Some(TimeoutError), i, notices;
      }
      var r := op(i);
      if r.None? {
        return None, i + 1, notices;
      }
      var ab := FindAbort(r.value);
      if ab.Some? {
        return ab.value, i + 1, notices;
      }
      var sleep := 0;
      if opts.backoff {
        sleep := durations(i);
      }
      RunStep(op, opts, budget, durations, i);
      if opts.callback {
        notices := notices + [Notice(r.value, sleep)];
      }
      // time.Sleep(sleep)
      i := i + 1;
    }
  }

  /** One ordinary failure: the rest of the loop, preceded by its notice when there is a callback. */
  lemma RunStep(op: nat -> Option<Error>, opts: Options, budget: nat, durations: nat -> Duration, i: nat)
    requires i < budget && Ordinary(op(i))
    ensures var here := Run(op, opts, budget, durations, i);
      var rest := Run(op, opts, budget, durations, i + 1);
      here.err == rest.err && here.attempts == rest.attempts
      && here.notices == (if opts.callback then [Notice(op(i).value, SleepAt(opts, durations, i))] else []) + rest.notices
  {
  }

  /** The callback invocations for iterations i up to k, all ordinary failures. */
  function Notices(op: nat -> Option<Error>, opts: Options, durations: nat -> Duration, i: nat, k: nat): seq<Notice>
    requires forall j :: i <= j < k ==> Ordinary(op(j))
    decreases k - i
  {
    if i >= k then []
    else
      assert Ordinary(op(i));
      var note := if opts.callback then [Notice(op(i).value, SleepAt(opts, durations, i))] else [];
      note + Notices(op, opts, durations, i + 1, k)
  }

  /** The invocations match the failures one for one: as many as there were
      failures (none without a callback), each with its failing error. */
  lemma {:induction false} NoticesShape(op: nat -> Option<Error>, opts: Options, durations: nat -> Duration, i: nat, k: nat)
    requires i <= k
    requires forall j :: i <= j < k ==> Ordinary(op(j))
    ensures var ns := Notices(op, opts, durations, i, k);
      |ns| == (if opts.callback then k - i else 0)
      && forall j :: 0 <= j < |ns| ==> Some(ns[j].err) == op(i + j) && ns[j].sleep == SleepAt(opts, durations, i + j)
    decreases k - i
  {
    if i < k {
      NoticesShape(op, opts, durations, i + 1, k);
    }
  }

  /** The whole behaviour of the loop: if iterations i..k-1 fail ordinarily and
      k is the deadline or a success or an abort, the outcome is fixed. */
  lemma {:induction false} RunCharacterized(op: nat -> Option<Error>, opts: Options, budget: nat, durations: nat -> Duration, i: nat, k: nat)
    requires i <= k <= budget
    requires forall j :: i <= j < k ==> Ordinary(op(j))
    requires k < budget ==> !Ordinary(op(k))
    ensures var o := Run(op, opts, budget, durations, i);
      o.notices == Notices(op, opts, durations, i, k)
      && (k == budget ==> o.err == Some(TimeoutError) && o.attempts == budget)
      && (k < budget && op(k).None? ==> o.err.None? && o.attempts == k + 1)
      && (k < budget && op(k).Some? ==> o.err == FindAbort(op(k).value).value && o.attempts == k + 1)
    decreases k - i
  {
    if i < k {
      RunCharacterized(op, opts, budget, durations, i + 1, k);
    }
  }

  /** An operation that fails n times with ordinary errors and then succeeds,
      before the deadline, makes Retry succeed after n + 1 calls with exactly n
      callback invocations, the j-th carrying the j-th error. */
  lemma FailuresThenSuccess(op: nat -> Option<Error>, opts: Options, budget: nat, durations: nat -> Duration, n: nat)
    requires n < budget
    requires forall j :: 0 <= j < n ==> Ordinary(op(j))
    requires op(n).None?
    requires opts.callback
    ensures var o := Run(op, opts, budget, durations, 0);
      o.err.None? && o.attempts == n + 1 && |o.notices| == n
      && forall j :: 0 <= j < n ==> Some(o.notices[j].err) == op(j)
  {
    RunCharacterized(op, opts, budget, durations, 0, n);
    NoticesShape(op, opts, durations, 0, n);
  }

  /** An abort anywhere on the wrap chain stops the loop at once: Retry returns
      the abort's cause (nil for a nil cause) and calls neither the callback
      for it nor the operation again. */
  lemma AbortStops(op: nat -> Option<Error>, opts: Options, budget: nat, durations: nat -> Duration, n: nat, cause: Option<Error>)
    requires n < budget
    requires forall j :: 0 <= j < n ==> Ordinary(op(j))
    requires op(n).Some? && FindAbort(op(n).value) == Some(cause)
    ensures var o := Run(op, opts, budget, durations, 0);
      o.err == cause && o.attempts == n + 1
      && |o.notices| == (if opts.callback then n else 0)
  {
    RunCharacterized(op, opts, budget, durations, 0, n);
    NoticesShape(op, opts, durations, 0, n);
  }

  /** An operation that never stops failing meets the deadline: Retry returns
      the wrapped timeout error after exactly budget calls. With no budget at all
      the operation is never called. */
  lemma AlwaysFailingTimesOut(op: nat -> Option<Error>, opts: Options, budget: nat, durations: nat -> Duration)
    requires forall j :: 0 <= j < budget ==> Ordinary(op(j))
    ensures var o := Run(op, opts, budget, durations, 0);
      o.err == Some(TimeoutError) && o.attempts == budget
      && |o.notices| == (if opts.callback then budget else 0)
  {
    RunCharacterized(op, opts, budget, durations, 0, budget);
    NoticesShape(op, opts, durations, 0, budget);
  }

  /** Without backoff every callback is told to sleep 0; every notice carries an
      ordinary error. */
  lemma {:induction false} NoticesWithoutBackoff(op: nat -> Option<Error>, opts: Options, budget: nat, durations: nat -> Duration, i: nat)
    ensures forall n <- Run(op, opts, budget, durations, i).notices ::
      Ordinary(Some(n.err)) && (!opts.backoff ==> n.sleep == 0)
    decreases budget - i
  {
    if i < budget && Ordinary(op(i)) {
      NoticesWithoutBackoff(op, opts, budget, durations, i + 1);
      var rest := Run(op, opts, budget, durations, i + 1).notices;
      var note: seq<Notice> := if opts.callback then [Notice(op(i).value, SleepAt(opts, durations, i))] else [];
      var all: seq<Notice> := note + rest;
      assert Run(op, opts, budget, durations, i).notices == all;
      forall n <- all
        ensures Ordinary(Some(n.err)) && (!opts.backoff ==> n.sleep == 0)
      {
        if n !in rest {
          assert n == Notice(op(i).value, SleepAt(opts, durations, i));
        }
      }
    }
  }

  /** The operation is called at most budget times, and at least once when there is any budget. */
  lemma {:induction false} AttemptsBounded(op: nat -> Option<Error>, opts: Options, budget: nat, durations: nat -> Duration, i: nat)
    requires i <= budget
    ensures i < budget ==> i < Run(op, opts, budget, durations, i).attempts
    ensures Run(op, opts, budget, durations, i).attempts <= budget
    decreases budget - i
  {
    if i < budget && Ordinary(op(i)) {
      AttemptsBounded(op, opts, budget, durations, i + 1);
    }
  }
}
