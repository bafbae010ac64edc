/** The cache interface, the backend registry and the package default
    (cache/cache.go). The backend is an abstract store: a map from keys to
    values plus injected faults for Fetch and Save. */
module Cache {
  import opened Wrappers
  import opened Errors
  import opened CacheOption
  import CacheUtil
  import Retry

  /** What one Fetch yields: an error, or the value it decodes into the destination. */
  datatype Fetched<V> = Fetched(err: Option<Error>, value: Option<V>)

  /** A Fetch against the stored map, unless a fault is injected for it: a hit
      yields the stored value, a miss the ErrorNotFound sentinel. */
  function Lookup<V>(data: map<string, V>, fault: Option<Error>, key: string): (r: Fetched<V>)
    ensures r.err.None? <==> r.value.Some?
    ensures r.err.None? <==> fault.None? && key in data
    ensures r.value.Some? ==> r.value.value == data[key]
    ensures fault.None? && key !in data ==> r.err == Some(NotFound)
    ensures fault.Some? ==> r.err == fault
  {
    if fault.Some? then Fetched(fault, None)
    else if key in data then Fetched(None, Some(data[key]))
    else Fetched(Some(NotFound), None)
  }

  /** The fault injected for the i-th Fetch; none are left after the queue ends. */
  function FaultAt(faults: seq<Option<Error>>, i: nat): Option<Error> {
    if i < |faults| then faults[i] else None
  }

  function Drop<T>(s: seq<T>, n: nat): seq<T> {
    if n < |s| then s[n..] else []
  }

  /** The `value interface{}` a Fetch decodes into. */
  class Destination<V> {
    var content: Option<V>

    constructor (content: Option<V>)
      ensures this.content == content
    {
      this.content := content;
    }
  }

  /** A Cache backend. `id` is its identity (the %p of the interface value);
      each Fetch consumes one entry of `fetchFaults`, an entry Some(e) making
      that Fetch fail with e; every Save fails with `saveFault` when it is set. */
  class Store<V> {
    const id: string
    var data: map<string, V>
    var fetchFaults: seq<Option<Error>>
    var saveFault: Option<Error>

    constructor (id: string, data: map<string, V>, fetchFaults: seq<Option<Error>>, saveFault: Option<Error>)
      ensures this.id == id && this.data == data
      ensures this.fetchFaults == fetchFaults && this.saveFault == saveFault
    {
      this.id := id;
      this.data := data;
      this.fetchFaults := fetchFaults;
      this.saveFault := saveFault;
    }

    /** Fetch: on a hit the destination receives the stored value; on any
        error it is left alone. */
    method Fetch(key: string, dest: Destination<V>) returns (err: Option<Error>)
      modifies this`fetchFaults, dest
      ensures var f := Lookup(data, FaultAt(old(fetchFaults), 0), key);
        err == f.err && dest.content == (if f.value.Some? then f.value else old(dest.content))
      ensures fetchFaults == Drop(old(fetchFaults), 1)
    {
      var fault := FaultAt(fetchFaults, 0);
      fetchFaults := Drop(fetchFaults, 1);
      if fault.Some? {
        return fault;
      }
      if key !in data {
        return Some(NotFound);
      }
      dest.content := Some(data[key]);
      return None;
    }

    /** Save: stores the value under the key unless a save fault is injected. */
    method Save(key: string, value: V) returns (err: Option<Error>)
      modifies this`data
      ensures err == saveFault
      ensures data == (if saveFault.None? then old(data)[key := value] else old(data))
    {
      if saveFault.Some? {
        return saveFault;
      }
      data := data[key := value];
      return None;
    }
  }

  const Memory := "memory"
  const Redis := "redis"
  const RedisSentinel := "redis+sentinel"

  /** The error New reports for a type with no factory. */
  function NotSupported(t: string): Error {
    Text("Cache type " + t + " not support")
  }

  /** The options New hands to a factory: the setters' result with the codec
      forced to the package default, whatever a setter put there. */
  function BuildOptions(setters: seq<Setter>): (o: Options)
    ensures o.codec == DefaultCodec
    ensures var s := ApplyAll(Zero, setters);
      o.address == s.address && o.expiration == s.expiration && o.prefix == s.prefix
  {
    ApplyAll(Zero, setters).(codec := DefaultCodec)
  }

  /** The setters Initialize passes to New. */
  function InitSetters(addr: string): seq<Setter> {
    [Address(addr), Prefix("cache:")]
  }

  /** The retry options Initialize pings with. */
  const PingRetry := [
    Retry.InitialInterval(500 * Retry.Millisecond),
    Retry.MaxInterval(10 * Retry.Second),
    Retry.Timeout(Retry.Minute),
    Retry.Callback(true)]

  /** Initialize's cache gets exactly its address, the "cache:" prefix and the
      default codec; its ping is retried every 500ms to 10s with backoff, for a
      minute, reporting each failure. */
  lemma InitializeSettings(addr: string)
    ensures BuildOptions(InitSetters(addr)) == Options(addr, DefaultCodec, 0, "cache:")
    ensures Retry.Resolve(PingRetry) == Retry.Options(500 * Retry.Millisecond, 10 * Retry.Second, Retry.Minute, true, true)
  {
    var s := InitSetters(addr);
    var o1 := Apply(Zero, s[0]);
    assert ApplyAll(Zero, s) == ApplyAll(o1, s[1..]);
    assert ApplyAll(o1, s[1..]) == ApplyAll(Apply(o1, s[1]), s[1..][1..]);
    assert s[1..][1..] == [];
    var p := PingRetry;
    var r1 := Retry.Apply(Retry.Initial, p[0]);
    var r2 := Retry.Apply(r1, p[1]);
    var r3 := Retry.Apply(r2, p[2]);
    var r4 := Retry.Apply(r3, p[3]);
    assert Retry.ApplyAll(Retry.Initial, p) == Retry.ApplyAll(r1, p[1..]);
    assert Retry.ApplyAll(r1, p[1..]) == Retry.ApplyAll(r2, p[2..]) by { assert p[1..][1..] == p[2..]; }
    assert Retry.ApplyAll(r2, p[2..]) == Retry.ApplyAll(r3, p[3..]) by { assert p[2..][1..] == p[3..]; }
    assert Retry.ApplyAll(r3, p[3..]) == r4 by { assert p[3..][1..] == []; }
  }

  /** The factory table and the published default cache. */
  class Registry<C> {
    var factories: map<string, Options -> Result<C, Error>>
    var cache: Option<C>

    constructor ()
      ensures factories == map[] && cache == None
    {
      factories := map[];
      cache := None;
    }

    /** Register: the factory replaces any earlier one of that type; New then
        calls it for that type and nothing changes for other types. */
    method Register(t: string, factory: Options -> Result<C, Error>)
      modifies this`factories
      ensures factories == old(factories)[t := factory]
      ensures forall setters :: New(t, setters) == factory(BuildOptions(setters))
      ensures forall t', setters :: t' != t ==> New(t', setters) == old(New(t', setters))
    {
      factories := factories[t := factory];
    }

    /** New: an unregistered type fails with "Cache type <t> not support" and
        calls no factory. */
    function New(t: string, setters: seq<Setter>): (r: Result<C, Error>)
      reads this
      ensures t !in factories ==> r == Failure(NotSupported(t))
      ensures t in factories ==> r == factories[t](BuildOptions(setters))
    {
      if t in factories then factories[t](BuildOptions(setters)) else Failure(NotSupported(t))
    }

    /** Initialize: build the cache, then retry its Ping. The cache is published
        only when the retried ping succeeds; on any error the default is left as
        it was. `ping(c)(i)` is the i-th Ping of cache c; `budget` and
        `durations` are the retry deadline and backoff oracles. `shown` is the
        address as the ping-failure log line shows it: redacted when it parses
        as a URL (`parse` standing for url.Parse). */
    method Initialize<R>(t: string, addr: string, ping: C -> nat -> Option<Error>,
                         budget: nat, durations: nat -> Retry.Duration,
                         parse: string -> Option<CacheUtil.Url<R>>, render: CacheUtil.Url<R> -> string)
      returns (err: Option<Error>, notices: seq<Retry.Notice>, shown: string)
      modifies this`cache
      ensures New(t, InitSetters(addr)).Failure? ==>
        err == Some(New(t, InitSetters(addr)).error) && notices == [] && cache == old(cache)
      ensures New(t, InitSetters(addr)).Success? ==>
        var c := New(t, InitSetters(addr)).value;
        var o := Retry.Run(ping(c), Retry.Resolve(PingRetry), budget, durations, 0);
        err == o.err && notices == o.notices
        && cache == (if o.err.None? then Some(c) else old(cache))
        && shown == (if parse(addr).Some? then CacheUtil.Redacted(parse(addr), render) else addr)
    {
      var built := New(t, InitSetters(addr));
      if built.Failure? {
        return Some(built.error), [], addr;
      }
      var c := built.value;
      shown := addr;
      var u := parse(addr);
      if u.Some? {
        shown := CacheUtil.Redacted(u, render);
      }
      var attempts;
      err, attempts, notices := Retry.Retry(ping(c), PingRetry, budget, durations);
      if err.Some? {
        return;
      }
      cache := Some(c);
    }

    /** Default: the last cache Initialize published, None before any. */
    function Default(): (r: Option<C>)
      reads this
      ensures r == cache
    {
      cache
    }
  }

  /** A ping that succeeds at once publishes the cache. */
  method InitializePublishes<C>(reg: Registry<C>, t: string, addr: string, c: C, budget: nat, durations: nat -> Retry.Duration)
    requires reg.New(t, InitSetters(addr)) == Success(c)
    requires budget > 0
    modifies reg
    ensures reg.Default() == Some(c)
  {
    var parse := (s: string) => None;
    var render := (u: CacheUtil.Url<int>) => "";
    var err, notices, shown := reg.Initialize(t, addr, (x: C) => (i: nat) => None, budget, durations, parse, render);
  }

  /** A ping that fails until the deadline leaves the default as it was,
      returns the wrapped retry timeout and logs every failed ping. */
  method InitializeTimesOut<C>(reg: Registry<C>, t: string, addr: string, c: C, budget: nat, durations: nat -> Retry.Duration)
    returns (err: Option<Error>, notices: seq<Retry.Notice>)
    requires reg.New(t, InitSetters(addr)) == Success(c)
    modifies reg
    ensures reg.Default() == old(reg.Default())
    ensures err == Some(Retry.TimeoutError) && |notices| == budget
  {
    var parse := (s: string) => None;
    var render := (u: CacheUtil.Url<int>) => "";
    var down := (x: C) => (i: nat) => Some(Text("connection refused"));
    var shown;
    err, notices, shown := reg.Initialize(t, addr, down, budget, durations, parse, render);
    InitializeSettings(addr);
    Retry.AlwaysFailingTimesOut(down(c), Retry.Resolve(PingRetry), budget, durations);
  }
}
