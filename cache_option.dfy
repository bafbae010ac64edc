/** The cache's functional options (cache/option.go). */
module CacheOption {
  import opened Wrappers

  /** time.Duration, in nanoseconds. */
  type Duration = int

  /** The Codec interface value held by the options: nil, the package's
      default codec, or some other implementation, told apart by a name. */
  datatype Codec = NilCodec | DefaultCodec | OtherCodec(name: string)

  datatype Options = Options(address: string, codec: Codec, expiration: Duration, prefix: string)

  /** Options{}: every field its zero value. */
  const Zero := Options("", NilCodec, 0, "")

  /** The three setters of the package; WithCodec stands for any caller-written
      Option that assigns the Codec field. */
  datatype Setter =
    | Address(addr: string)
    | Expiration(d: Duration)
    | Prefix(prefix: string)
    | WithCodec(c: Codec)

  /** Options.Key: the prefix followed by the key. */
  function Key(opts: Options, key: string): (r: string)
    ensures |r| == |opts.prefix| + |key|
    ensures r[..|opts.prefix|] == opts.prefix && r[|opts.prefix|..] == key
    ensures opts.prefix == "" ==> r == key
  {
    opts.prefix + key
  }

  /** Distinct keys stay distinct under one prefix. */
  lemma KeyInjective(opts: Options, a: string, b: string)
    requires Key(opts, a) == Key(opts, b)
    ensures a == b
  {
    assert a == Key(opts, a)[|opts.prefix|..];
  }

  /** One setter assigns its own field and leaves the other three alone. */
  function Apply(o: Options, s: Setter): (r: Options)
    ensures !s.Address? ==> r.address == o.address
    ensures !s.Expiration? ==> r.expiration == o.expiration
    ensures !s.Prefix? ==> r.prefix == o.prefix
    ensures !s.WithCodec? ==> r.codec == o.codec
  {
    match s
    case Address(a) => o.(address := a)
    case Expiration(d) => o.(expiration := d)
    case Prefix(p) => o.(prefix := p)
    case WithCodec(c) => o.(codec := c)
  }

  function ApplyAll(o: Options, setters: seq<Setter>): Options
    decreases |setters|
  {
    if setters == [] then o else ApplyAll(Apply(o, setters[0]), setters[1..])
  }

  /** newOptions: the setters run in order on the zero options. */
  method NewOptions(setters: seq<Setter>) returns (opts: Options)
    ensures opts == ApplyAll(Zero, setters)
    ensures setters == [] ==> opts == Zero
  {
    opts := Zero;
    for i := 0 to |setters|
      invariant ApplyAll(opts, setters[i..]) == ApplyAll(Zero, setters)
    {
      assert setters[i..][1..] == setters[i + 1..];
      opts := Apply(opts, setters[i]);
    }
  }

  /** The last value a kind of setter assigns, searched from the end. */
  function LastAddress(s: seq<Setter>): Option<string> {
    if s == [] then None
    else if s[|s| - 1].Address? then Some(s[|s| - 1].addr) else LastAddress(s[..|s| - 1])
  }

  function LastExpiration(s: seq<Setter>): Option<Duration> {
    if s == [] then None
    else if s[|s| - 1].Expiration? then Some(s[|s| - 1].d) else LastExpiration(s[..|s| - 1])
  }

  function LastPrefix(s: seq<Setter>): Option<string> {
    if s == [] then None
    else if s[|s| - 1].Prefix? then Some(s[|s| - 1].prefix) else LastPrefix(s[..|s| - 1])
  }

  function LastCodec(s: seq<Setter>): Option<Codec> {
    if s == [] then None
    else if s[|s| - 1].WithCodec? then Some(s[|s| - 1].c) else LastCodec(s[..|s| - 1])
  }

  lemma {:induction false} ApplyAllSnoc(o: Options, s: seq<Setter>)
    requires s != []
    ensures ApplyAll(o, s) == Apply(ApplyAll(o, s[..|s| - 1]), s[|s| - 1])
    decreases |s|
  {
    if |s| > 1 {
      assert s[1..][..|s[1..]| - 1] == s[..|s| - 1][1..];
      ApplyAllSnoc(Apply(o, s[0]), s[1..]);
    }
  }

  /** The last setter of each field wins; a field no setter names keeps the
      value it started with. */
  lemma {:induction false} LastSetterWins(o: Options, s: seq<Setter>)
    ensures ApplyAll(o, s).address == (if LastAddress(s).Some? then LastAddress(s).value else o.address)
    ensures ApplyAll(o, s).expiration == (if LastExpiration(s).Some? then LastExpiration(s).value else o.expiration)
    ensures ApplyAll(o, s).prefix == (if LastPrefix(s).Some? then LastPrefix(s).value else o.prefix)
    ensures ApplyAll(o, s).codec == (if LastCodec(s).Some? then LastCodec(s).value else o.codec)
    decreases |s|
  {
    if s != [] {
      ApplyAllSnoc(o, s);
      LastSetterWins(o, s[..|s| - 1]);
    }
  }
}
