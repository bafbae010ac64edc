/** The per-key lock table and URL redaction of the cache package (cache/util.go). */
module CacheUtil {
  import opened Wrappers

  /** The steps a Lock or Unlock takes on the table and on the mutexes, in order. */
  datatype Event =
    | Stored(key: string, mutex: nat)
    | Acquired(mutex: nat)
    | Deleted(key: string)
    | Released(mutex: nat)

  /** keyMutex, run by one goroutine at a time. `entries` is the sync.Map from
      a key to the mutex created for it (mutexes are named by number), `locked`
      the mutexes currently held, `next` the number of the next mutex created. */
  class KeyMutex {
    var entries: map<string, nat>
    var locked: set<nat>
    var next: nat
    ghost var trace: seq<Event>

    /** Sequentially, an entry exists exactly while its mutex is held, and no
        two keys share a mutex. */
    ghost predicate Valid()
      reads this
    {
      (forall k | k in entries :: entries[k] < next)
      && locked == entries.Values
      && (forall k1, k2 | k1 in entries && k2 in entries && entries[k1] == entries[k2] :: k1 == k2)
    }

    constructor ()
      ensures Valid() && entries == map[] && locked == {} && trace == []
    {
      entries := map[];
      locked := {};
      next := 0;
      trace := [];
    }

    /** The keys currently held. */
    function Held(): set<string>
      reads this
    {
      entries.Keys
    }

    /** Lock on a free key: the fresh mutex is stored for the key and locked.
        (A key that is already held would block until its holder unlocks,
        which a single goroutine never reaches.) */
    method Lock(key: string)
      requires Valid() && key !in entries
      modifies this
      ensures Valid()
      ensures entries == old(entries)[key := old(next)] && next == old(next) + 1
      ensures locked == old(locked) + {old(next)} && old(next) !in old(locked)
      ensures Held() == old(Held()) + {key}
      ensures trace == old(trace) + [Stored(key, old(next)), Acquired(old(next))]
    {
      var m := next;
      next := next + 1;
      // LoadOrStore finds no entry, so it stores m and hands m back
      ghost var before := entries;
      entries := entries[key := m];
      trace := trace + [Stored(key, m)];
      locked := locked + {m};
      assert entries[key] == m;
      forall v | v in locked ensures v in entries.Values {
        if v != m {
          var k :| k in before && before[k] == v;
          assert entries[k] == v;
        }
      }
      trace := trace + [Acquired(m)];
      // the loaded mutex is m itself, so there is no retry
    }

    /** Unlock: the key's entry is deleted and then its mutex released.
        Unlocking a key with no entry panics ("unlock of unlocked mutex"), so
        it is excluded by the precondition. */
    method Unlock(key: string)
      requires Valid() && key in entries
      modifies this
      ensures Valid()
      ensures entries == old(entries) - {key} && next == old(next)
      ensures locked == old(locked) - {old(entries)[key]}
      ensures Held() == old(Held()) - {key}
      ensures trace == old(trace) + [Deleted(key), Released(old(entries)[key])]
    {
      var m := entries[key];
      ghost var before := entries;
      entries := entries - {key};
      trace := trace + [Deleted(key)];
      locked := locked - {m};
      forall v | v in locked ensures v in entries.Values {
        var k :| k in before && before[k] == v;
        assert entries[k] == v;
      }
      trace := trace + [Released(m)];
    }
  }

  /** A Lock/Unlock pair on a free key leaves the table as it was. */
  method LockUnlock(km: KeyMutex, key: string)
    requires km.Valid() && key !in km.entries
    modifies km
    ensures km.Valid() && km.entries == old(km.entries) && km.locked == old(km.locked)
    ensures km.trace == old(km.trace) + [Stored(key, old(km.next)), Acquired(old(km.next)), Deleted(key), Released(old(km.next))]
  {
    km.Lock(key);
    km.Unlock(key);
    assert km.entries == old(km.entries);
  }

  /** url.Userinfo: a username and a password that may be absent. */
  datatype Userinfo = Userinfo(username: string, password: Option<string>)

  /** The parts of a url.URL redaction looks at; `rest` stands for every other
      field (scheme, host, path, query, fragment). */
  datatype Url<R> = Url(user: Option<Userinfo>, rest: R)

  const Mask := "xxxxx"

  /** The copy of the URL that redacted renders: a present password is
      replaced by "xxxxx", everything else is kept. */
  function RedactUrl<R>(u: Url<R>): (r: Url<R>)
    ensures r.rest == u.rest
    ensures r.user.Some? <==> u.user.Some?
    ensures u.user.Some? ==> r.user.value.username == u.user.value.username
    ensures u.user.Some? && u.user.value.password.Some? ==> r.user.value.password == Some(Mask)
    ensures u.user.None? || u.user.value.password.None? ==> r == u
  {
    if u.user.Some? && u.user.value.password.Some? then
      u.(user := Some(Userinfo(u.user.value.username, Some(Mask))))
    else u
  }

  /** redacted: "" for a nil URL, otherwise the rendering (url.URL.String,
      given as `render`) of the redacted copy. */
  function Redacted<R>(u: Option<Url<R>>, render: Url<R> -> string): (r: string)
    ensures u.None? ==> r == ""
  {
    if u.None? then "" else render(RedactUrl(u.value))
  }

  /** The rendered text cannot depend on the password: two URLs that differ
      only in a present password redact to the same string. Redacting twice is
      redacting once. */
  lemma PasswordHidden<R>(u1: Url<R>, u2: Url<R>, render: Url<R> -> string)
    requires u1.rest == u2.rest && u1.user.Some? && u2.user.Some?
    requires u1.user.value.username == u2.user.value.username
    requires u1.user.value.password.Some? && u2.user.value.password.Some?
    ensures Redacted(Some(u1), render) == Redacted(Some(u2), render)
    ensures RedactUrl(RedactUrl(u1)) == RedactUrl(u1)
  {
  }
}
