/** FetchOrSave (cache/helper.go): fetch, and on a miss lock the key, fetch
    again, build, save, and fall back to an in-memory encode/decode when the
    save fails. */
module CacheHelper {
  import opened Wrappers
  import opened Errors
  import opened Cache
  import opened CacheUtil

  /** The package codec, abstract: Encode and Decode may each fail. */
  datatype Codec<!V> = Codec(encode: V -> Result<seq<bv8>, Error>, decode: seq<bv8> -> Result<V, Error>)

  /** Where the final Fetch after a successful save decodes into: the
      caller's destination, or (as written at cache/helper.go:68) the built
      value `val`, which the caller never sees. */
  datatype FinalTarget = IntoDestination | IntoBuiltValue

  /** The lock key "%p:%s": the cache's identity, a colon, the key. */
  function LockKey(id: string, key: string): string {
    id + ":" + key
  }

  /** The first colon of a lock key ends the identity. */
  lemma LockKeyShape(id: string, key: string)
    requires ':' !in id
    ensures LockKey(id, key)[|id|] == ':'
    ensures forall i :: 0 <= i < |id| ==> LockKey(id, key)[i] != ':'
  {
    assert forall i :: 0 <= i < |id| ==> LockKey(id, key)[i] == id[i];
  }

  /** An identity holds no colon (%p prints hex digits), so different caches
      or different keys never share a lock. */
  lemma LockKeyInjective(id1: string, key1: string, id2: string, key2: string)
    requires ':' !in id1 && ':' !in id2
    requires LockKey(id1, key1) == LockKey(id2, key2)
    ensures id1 == id2 && key1 == key2
  {
    LockKeyShape(id1, key1);
    LockKeyShape(id2, key2);
    var s := LockKey(id1, key1);
    assert id1 == s[..|id1|] == id2;
    assert key1 == s[|id1| + 1..] == key2;
  }

  /** The effect of one FetchOrSave: its result, the new stored map, the new
      destination, how many Fetches it made, whether it took the key lock and
      whether it called the builder. */
  datatype Effect<V> = Effect(err: Option<Error>, data: map<string, V>, dest: Option<V>,
                              fetches: nat, locked: bool, built: bool)

  /** The fallback after a failed save: copy the built value through the codec. */
  function Degrade<V>(val: V, dest: Option<V>, codec: Codec<V>): (Option<Error>, Option<V>) {
    match codec.encode(val)
    case Failure(e) => (Some(e), dest)
    case Success(bytes) =>
      match codec.decode(bytes)
      case Failure(e) => (Some(e), dest)
      case Success(copy) => (None, Some(copy))
  }

  /** FetchOrSave as a function of the store's contents, its injected faults,
      the destination's old content, the builder's outcome and the codec. */
  function Protocol<V>(data: map<string, V>, faults: seq<Option<Error>>, saveFault: Option<Error>,
                       key: string, dest: Option<V>, builder: Result<V, Error>, codec: Codec<V>,
                       target: FinalTarget): Effect<V>
  {
    var f1 := Lookup(data, FaultAt(faults, 0), key);
    if f1.err.None? then Effect(None, data, f1.value, 1, false, false)
    else if !IsNotFound(f1.err.value) then Effect(f1.err, data, dest, 1, false, false)
    else Locked(data, FaultAt(faults, 1), FaultAt(faults, 2), saveFault, key, dest, builder, codec, target)
  }

  /** The part under the key lock: fetch again, and build only on a second miss. */
  function Locked<V>(data: map<string, V>, fault2: Option<Error>, fault3: Option<Error>, saveFault: Option<Error>,
                     key: string, dest: Option<V>, builder: Result<V, Error>, codec: Codec<V>,
                     target: FinalTarget): (r: Effect<V>)
    ensures r.locked && r.fetches >= 2
  {
    var f2 := Lookup(data, fault2, key);
    if f2.err.None? then Effect(None, data, f2.value, 2, true, false)
    else if !IsNotFound(f2.err.value) then Effect(f2.err, data, dest, 2, true, false)
    else AfterMisses(data, fault3, saveFault, key, dest, builder, codec, target)
  }

  /** The part after two misses: build, save, then degrade or fetch once more. */
  function AfterMisses<V>(data: map<string, V>, fault: Option<Error>, saveFault: Option<Error>,
                          key: string, dest: Option<V>, builder: Result<V, Error>, codec: Codec<V>,
                          target: FinalTarget): (r: Effect<V>)
    ensures r.locked && r.built && r.fetches >= 2
  {
    if builder.Failure? then Effect(Some(builder.error), data, dest, 2, true, true)
    else if saveFault.Some? then
      var (err, out) := Degrade(builder.value, dest, codec);
      Effect(err, data, out, 2, true, true)
    else
      var saved := data[key := builder.value];
      var f3 := Lookup(saved, fault, key);
      var out := if target.IntoDestination? && f3.value.Some? then f3.value else dest;
      Effect(f3.err, saved, out, 3, true, true)
  }

  /** The protocol's guarantees, case by case. */
  lemma ProtocolCases<V>(data: map<string, V>, faults: seq<Option<Error>>, saveFault: Option<Error>,
                         key: string, dest: Option<V>, builder: Result<V, Error>, codec: Codec<V>,
                         target: FinalTarget)
    // a first hit returns at once: no lock, no build, the destination gets the cached value
    ensures var r := Protocol(data, faults, saveFault, key, dest, builder, codec, target);
      var f1 := Lookup(data, FaultAt(faults, 0), key);
      f1.err.None? ==> r == Effect(None, data, Some(data[key]), 1, false, false)
    // an internal error from the first Fetch is returned, with no lock and no build
    ensures var r := Protocol(data, faults, saveFault, key, dest, builder, codec, target);
      var f1 := Lookup(data, FaultAt(faults, 0), key);
      f1.err.Some? && !IsNotFound(f1.err.value) ==> r == Effect(f1.err, data, dest, 1, false, false)
    // the lock is taken exactly on a not-found miss; the builder runs only
    // when the second Fetch, under the lock, misses too
    ensures var r := Protocol(data, faults, saveFault, key, dest, builder, codec, target);
      var f1 := Lookup(data, FaultAt(faults, 0), key);
      var f2 := Lookup(data, FaultAt(faults, 1), key);
      (r.locked <==> f1.err.Some? && IsNotFound(f1.err.value))
      && (r.built ==> r.locked && f2.err.Some? && IsNotFound(f2.err.value))
    // a hit under the lock returns without building, the store unchanged
    ensures var r := Protocol(data, faults, saveFault, key, dest, builder, codec, target);
      r.locked && Lookup(data, FaultAt(faults, 1), key).err.None? ==>
      r == Effect(None, data, Some(data[key]), 2, true, false)
    // nothing is written to the store except by a successful save of the built value
    ensures var r := Protocol(data, faults, saveFault, key, dest, builder, codec, target);
      r.data == data || (r.built && builder.Success? && saveFault.None? && r.data == data[key := builder.value])
    // a builder error is returned as it is, nothing saved
    ensures var r := Protocol(data, faults, saveFault, key, dest, builder, codec, target);
      r.built && builder.Failure? ==> r.err == Some(builder.error) && r.data == data && r.dest == dest
    // a failed save degrades to Decode(Encode(val)) into the destination
    ensures var r := Protocol(data, faults, saveFault, key, dest, builder, codec, target);
      r.built && builder.Success? && saveFault.Some? ==>
      (r.err, r.dest) == Degrade(builder.value, dest, codec) && r.data == data
    // after a successful save the result is that of one more Fetch
    ensures var r := Protocol(data, faults, saveFault, key, dest, builder, codec, target);
      r.built && builder.Success? && saveFault.None? ==>
      r.fetches == 3 && r.err == Lookup(r.data, FaultAt(faults, 2), key).err
      && r.dest == (if target.IntoDestination? && r.err.None? then Some(builder.value) else dest)
  {
  }

  lemma DropFaults(faults: seq<Option<Error>>, n: nat)
    ensures FaultAt(Drop(faults, n), 0) == FaultAt(faults, n)
    ensures FaultAt(Drop(faults, n), 1) == FaultAt(faults, n + 1)
    ensures Drop(Drop(faults, n), 1) == Drop(faults, n + 1)
    ensures Drop(Drop(faults, n), 2) == Drop(faults, n + 2)
    ensures Drop(faults, 0) == faults
  {
  }

  /** The four events of one Lock/Unlock pair on a free key. */
  function LockCycle(lk: string, m: nat): seq<Event> {
    [Stored(lk, m), Acquired(m), Deleted(lk), Released(m)]
  }

  /** The protocol, step by step. The key lock is released on every return
      path, after the last Fetch (as Go's deferred Unlock runs). */
  method FetchOrSaveTo<V>(c: Store<V>, km: KeyMutex, key: string, dest: Destination<V>,
                          builder: Result<V, Error>, codec: Codec<V>, target: FinalTarget)
    returns (err: Option<Error>)
    requires km.Valid() && LockKey(c.id, key) !in km.entries
    modifies c`data, c`fetchFaults, km, dest
    ensures var e := Protocol(old(c.data), old(c.fetchFaults), c.saveFault, key, old(dest.content), builder, codec, target);
      err == e.err && c.data == e.data && dest.content == e.dest
      && c.fetchFaults == Drop(old(c.fetchFaults), e.fetches)
      && km.trace == old(km.trace) + (if e.locked then LockCycle(LockKey(c.id, key), old(km.next)) else [])
    ensures km.Valid() && km.entries == old(km.entries) && km.locked == old(km.locked)
  {
    DropFaults(c.fetchFaults, 0);
    DropFaults(c.fetchFaults, 1);
    err := c.Fetch(key, dest);
    if err.None? || !IsNotFound(err.value) {
      return;
    }
    err := WithKeyLock(c, km, key, dest, builder, codec, target);
  }

  /** Lock the key, run the part under the lock, and unlock (the deferred Unlock). */
  method WithKeyLock<V>(c: Store<V>, km: KeyMutex, key: string, dest: Destination<V>,
                        builder: Result<V, Error>, codec: Codec<V>, target: FinalTarget)
    returns (err: Option<Error>)
    requires km.Valid() && LockKey(c.id, key) !in km.entries
    modifies c`data, c`fetchFaults, km, dest
    ensures var e := Locked(old(c.data), FaultAt(old(c.fetchFaults), 0), FaultAt(old(c.fetchFaults), 1), c.saveFault,
                            key, old(dest.content), builder, codec, target);
      err == e.err && c.data == e.data && dest.content == e.dest
      && c.fetchFaults == Drop(old(c.fetchFaults), e.fetches - 1)
      && km.trace == old(km.trace) + LockCycle(LockKey(c.id, key), old(km.next))
    ensures km.Valid() && km.entries == old(km.entries) && km.locked == old(km.locked)
  {
    var lk := LockKey(c.id, key);
    km.Lock(lk);
    err := UnderLock(c, key, dest, builder, codec, target);
    km.Unlock(lk);
    assert km.entries == old(km.entries);
  }

  /** Fetch again under the lock, and build and save only on a second miss. */
  method UnderLock<V>(c: Store<V>, key: string, dest: Destination<V>,
                      builder: Result<V, Error>, codec: Codec<V>, target: FinalTarget)
    returns (err: Option<Error>)
    modifies c`data, c`fetchFaults, dest
    ensures var e := Locked(old(c.data), FaultAt(old(c.fetchFaults), 0), FaultAt(old(c.fetchFaults), 1), c.saveFault,
                            key, old(dest.content), builder, codec, target);
      err == e.err && c.data == e.data && dest.content == e.dest
      && c.fetchFaults == Drop(old(c.fetchFaults), e.fetches - 1)
  {
    DropFaults(c.fetchFaults, 1);
    err := c.Fetch(key, dest);
    if err.None? || !IsNotFound(err.value) {
      return;
    }
    err := BuildAndSave(c, key, dest, builder, codec, target);
  }

  /** Build, save and then either degrade or fetch once more. */
  method BuildAndSave<V>(c: Store<V>, key: string, dest: Destination<V>,
                         builder: Result<V, Error>, codec: Codec<V>, target: FinalTarget)
    returns (err: Option<Error>)
    modifies c`data, c`fetchFaults, dest
    ensures var e := AfterMisses(old(c.data), FaultAt(old(c.fetchFaults), 0), c.saveFault, key, old(dest.content), builder, codec, target);
      err == e.err && c.data == e.data && dest.content == e.dest
      && c.fetchFaults == Drop(old(c.fetchFaults), e.fetches - 2)
  {
    if builder.Failure? {
      return Some(builder.error);
    }
    var val := builder.value;
    var saveErr := c.Save(key, val);
    if saveErr.Some? {
      // log.Warningf, then copy val into the destination through the codec
      var bytes := codec.encode(val);
      if bytes.Failure? {
        return Some(bytes.error);
      }
      var copy := codec.decode(bytes.value);
      if copy.Failure? {
        return Some(copy.error);
      }
      dest.content := Some(copy.value);
      return None;
    }
    if target.IntoDestination? {
      err := c.Fetch(key, dest);
    } else {
      var scratch := new Destination(Some(val));
      err := c.Fetch(key, scratch);
    }
  }

  /** FetchOrSave with the final Fetch into the caller's destination. */
  method FetchOrSave<V>(c: Store<V>, km: KeyMutex, key: string, dest: Destination<V>,
                        builder: Result<V, Error>, codec: Codec<V>)
    returns (err: Option<Error>)
    requires km.Valid() && LockKey(c.id, key) !in km.entries
    modifies c, km, dest
    ensures var e := Protocol(old(c.data), old(c.fetchFaults), old(c.saveFault), key, old(dest.content), builder, codec, IntoDestination);
      err == e.err && c.data == e.data && dest.content == e.dest
      && c.fetchFaults == Drop(old(c.fetchFaults), e.fetches)
      && km.trace == old(km.trace) + (if e.locked then LockCycle(LockKey(c.id, key), old(km.next)) else [])
    ensures km.Valid() && km.entries == old(km.entries) && km.locked == old(km.locked)
  {
    err := FetchOrSaveTo(c, km, key, dest, builder, codec, IntoDestination);
  }

  /** FetchOrSave as the source has it: the final Fetch writes into `val`. */
  method FetchOrSaveAsWritten<V>(c: Store<V>, km: KeyMutex, key: string, dest: Destination<V>,
                                 builder: Result<V, Error>, codec: Codec<V>)
    returns (err: Option<Error>)
    requires km.Valid() && LockKey(c.id, key) !in km.entries
    modifies c, km, dest
    ensures var e := Protocol(old(c.data), old(c.fetchFaults), old(c.saveFault), key, old(dest.content), builder, codec, IntoBuiltValue);
      err == e.err && c.data == e.data && dest.content == e.dest
      && c.fetchFaults == Drop(old(c.fetchFaults), e.fetches)
      && km.trace == old(km.trace) + (if e.locked then LockCycle(LockKey(c.id, key), old(km.next)) else [])
    ensures km.Valid() && km.entries == old(km.entries) && km.locked == old(km.locked)
  {
    err := FetchOrSaveTo(c, km, key, dest, builder, codec, IntoBuiltValue);
  }

  /** No faults: every Fetch answers from the map. */
  predicate FaultFree(faults: seq<Option<Error>>) {
    forall i :: 0 <= i < |faults| ==> faults[i].None?
  }

  /** With a fault-free store, a successful call leaves the key cached and
      hands the caller exactly the cached value; a second call then hits at
      once and builds nothing. */
  lemma CallerSeesCachedValue<V>(data: map<string, V>, faults: seq<Option<Error>>, key: string,
                                 dest: Option<V>, builder: Result<V, Error>, codec: Codec<V>, faults2: seq<Option<Error>>, dest2: Option<V>, builder2: Result<V, Error>)
    requires FaultFree(faults) && FaultFree(faults2)
    ensures var r := Protocol(data, faults, None, key, dest, builder, codec, IntoDestination);
      r.err.None? ==> (key in r.data && r.dest == Some(r.data[key])
      && !Protocol(r.data, faults2, None, key, dest2, builder2, codec, IntoDestination).built)
  {
    var f0 := FaultAt(faults, 0);
    var f2 := FaultAt(faults, 2);
    assert f0.None? && f2.None? by {
      if 0 < |faults| { assert faults[0].None?; }
      if 2 < |faults| { assert faults[2].None?; }
    }
    var g0 := FaultAt(faults2, 0);
    assert g0.None? by {
      if 0 < |faults2| { assert faults2[0].None?; }
    }
  }

  /** The finding at cache/helper.go:68: on an empty store, a builder that
      yields 7 and a save that succeeds, the call as written reports success
      but leaves the caller's destination empty; the corrected call delivers 7. */
  lemma AsWrittenLosesBuiltValue(codec: Codec<int>)
    ensures var w := Protocol(map[], [], None, "k", None, Success(7), codec, IntoBuiltValue);
      w.err.None? && w.dest.None? && w.data == map["k" := 7]
    ensures var f := Protocol(map[], [], None, "k", None, Success(7), codec, IntoDestination);
      f.err.None? && f.dest == Some(7)
  {
  }
}
