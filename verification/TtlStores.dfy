/** The two in-memory caches with expiry: the cc-octo install secrets
    (modules/runtime/cc_octo_secret.go) and the verified credentials (`verifyCache` in
    internal/auth/middleware.go). Every call takes the clock reading it makes; clocks
    do not run backwards. Each cache is proved against the plain history of its writes. */
module TtlStores {
  import opened Wrappers

  // ----- install secrets -----

  const SECRET_TTL := 600

  datatype Secret = Secret(gatewayUrl: string, apiKey: string, model: string)

  datatype Entry = Entry(secret: Secret, expireAt: int)

  datatype Write = Stored(key: string, secret: Secret, at: int) | Evicted(key: string)

  datatype Held = Held(secret: Secret, at: int)

  /** The secret that the history leaves in force for a key, if any, and when it was put. */
  function InForce(history: seq<Write>, key: string): Option<Held> {
    if history == [] then None
    else
      match history[|history| - 1]
      case Stored(k, secret, at) => if k == key then Some(Held(secret, at)) else InForce(history[..|history| - 1], key)
      case Evicted(k) => if k == key then None else InForce(history[..|history| - 1], key)
  }

  /** What a reader must see: the secret put last, for 600 seconds. */
  function Visible(history: seq<Write>, key: string, now: int): Option<Secret> {
    match InForce(history, key)
    case Some(w) => if now <= w.at + SECRET_TTL then Some(w.secret) else None
    case None => None
  }

  function KeyOf(w: Write): string {
    w.key
  }

  predicate LastWrite(history: seq<Write>, key: string, i: int) {
    0 <= i < |history| && KeyOf(history[i]) == key && forall j | i < j < |history| :: KeyOf(history[j]) != key
  }

  lemma {:induction false} InForceIs(history: seq<Write>, key: string)
    ensures match InForce(history, key)
            case Some(held) =>
                exists i :: LastWrite(history, key, i) && history[i] == Write.Stored(key, held.secret, held.at)
            case None => forall i | LastWrite(history, key, i) :: history[i].Evicted?
  {
    if history != [] {
      var n := |history| - 1;
      var before := history[..n];
      if KeyOf(history[n]) == key {
        assert LastWrite(history, key, n);
      } else {
        InForceIs(before, key);
        assert forall i :: LastWrite(history, key, i) <==> LastWrite(before, key, i);
      }
    }
  }

  /** A reader sees a secret exactly if the last write of the key is a put at most 600
      seconds ago, and then that one. */
  lemma VisibleIff(history: seq<Write>, key: string, now: int, secret: Secret)
    ensures Visible(history, key, now) == Some(secret) <==>
            exists i :: LastWrite(history, key, i) && history[i].Stored? && history[i].secret == secret
                && now - history[i].at <= 600
  {
    InForceIs(history, key);
    forall i, j | LastWrite(history, key, i) && LastWrite(history, key, j) ensures i == j {
    }
  }

  function Unexpired(m: map<string, Entry>, now: int): map<string, Entry> {
    map k | k in m && now <= m[k].expireAt :: m[k]
  }

  class SecretStore {
    var m: map<string, Entry>
    ghost var history: seq<Write>
    ghost var clock: int

    /** Every entry is the put in force with its expiry; a put in force without an
        entry has expired. */
    ghost predicate Valid()
      reads this
    {
      && (forall k | k in m :: InForce(history, k) == Some(Held(m[k].secret, m[k].expireAt - SECRET_TTL)))
      && (forall k | k !in m && InForce(history, k).Some? :: InForce(history, k).value.at + SECRET_TTL < clock)
    }

    constructor ()
      ensures Valid() && history == [] && clock == 0
    {
      m, history, clock := map[], [], 0;
    }

    method Put(taskId: string, secret: Secret, now: int)
      requires Valid() && now >= clock
      modifies this
      ensures Valid() && clock == now
      ensures history == old(history) + [Write.Stored(taskId, secret, now)]
      ensures m == Unexpired(old(m), now)[taskId := Entry(secret, now + SECRET_TTL)]
      ensures m[taskId] == Entry(secret, now + 600) && forall k | k in m :: now <= m[k].expireAt
    {
      SweepLocked(now);
      m := m[taskId := Entry(secret, now + SECRET_TTL)];
      history := history + [Write.Stored(taskId, secret, now)];
      assert history[..|history| - 1] == old(history);
    }

    /** A hit shows the secret in force and a miss means there is none or it is older
        than 600 seconds: the answer depends on the writes and the clock alone. */
    method Get(taskId: string, now: int) returns (secret: Option<Secret>)
      requires Valid() && now >= clock
      modifies this
      ensures Valid() && clock == now && history == old(history)
      ensures secret == Visible(history, taskId, now)
      ensures m == if taskId in old(m) && now > old(m)[taskId].expireAt then old(m) - {taskId} else old(m)
    {
      clock := now;
      if taskId !in m {
        return None;
      }
      var e := m[taskId];
      if now > e.expireAt {
        m := m - {taskId};
        return None;
      }
      secret := Some(e.secret);
    }

    method Evict(taskId: string)
      requires Valid()
      modifies this
      ensures Valid() && clock == old(clock)
      ensures history == old(history) + [Write.Evicted(taskId)] && m == old(m) - {taskId}
    {
      m := m - {taskId};
      history := history + [Write.Evicted(taskId)];
      assert history[..|history| - 1] == old(history);
    }

    /** Drops the expired entries, whenever it runs; no reader can tell. */
    method SweepLocked(now: int)
      requires Valid() && now >= clock
      modifies this
      ensures Valid() && clock == now && history == old(history)
      ensures m == Unexpired(old(m), now)
      ensures forall k | k in old(m) :: if now <= old(m)[k].expireAt then k in m && m[k] == old(m)[k] else k !in m
    {
      clock := now;
      var left := m.Keys;
      while left != {}
        invariant left <= m.Keys <= old(m).Keys
        invariant forall k | k in m :: m[k] == old(m)[k]
        invariant forall k | k in old(m) && k !in left :: k in m <==> now <= old(m)[k].expireAt
        invariant Valid() && clock == now && history == old(history)
        decreases left
      {
        var k :| k in left;
        left := left - {k};
        if now > m[k].expireAt {
          m := m - {k};
        }
      }
    }
  }

  // ----- verified credentials -----

  const CACHE_MAX: nat := 10000

  datatype Cached<T> = Cached(result: T, expireAt: int)

  datatype Kept<T> = Kept(key: string, result: T, at: int, ttl: int)

  function LastKept<T>(history: seq<Kept<T>>, key: string): Option<Kept<T>> {
    if history == [] then None
    else if history[|history| - 1].key == key then Some(history[|history| - 1])
    else LastKept(history[..|history| - 1], key)
  }

  function Fresh<T>(history: seq<Kept<T>>, key: string, now: int): Option<T> {
    match LastKept(history, key)
    case Some(s) => if now <= s.at + s.ttl then Some(s.result) else None
    case None => None
  }

  ghost predicate Agree<T>(entries: map<string, Cached<T>>, recent: seq<Kept<T>>, clock: int) {
    && (forall k | k in entries :: LastKept(recent, k).Some? && entries[k] == CachedAs(LastKept(recent, k).value))
    && (forall k | k !in entries && LastKept(recent, k).Some? :: CachedAs(LastKept(recent, k).value).expireAt < clock)
  }

  function CachedAs<T>(s: Kept<T>): Cached<T> {
    Cached(s.result, s.at + s.ttl)
  }

  lemma SetAgrees<T>(entries: map<string, Cached<T>>, recent: seq<Kept<T>>, clock: int, s: Kept<T>)
    requires Agree(entries, recent, clock)
    ensures Agree(entries[s.key := CachedAs(s)], recent + [s], clock)
  {
    assert (recent + [s])[..|recent|] == recent;
  }

  lemma EmptyAgrees<T>(clock: int)
    ensures Agree<T>(map[], [], clock)
  {
  }

  lemma LaterAgrees<T>(entries: map<string, Cached<T>>, recent: seq<Kept<T>>, clock: int, now: int)
    requires Agree(entries, recent, clock) && clock <= now
    ensures Agree(entries, recent, now)
  {
  }

  lemma DropAgrees<T>(entries: map<string, Cached<T>>, recent: seq<Kept<T>>, clock: int, key: string)
    requires Agree(entries, recent, clock) && key in entries && entries[key].expireAt < clock
    ensures Agree(entries - {key}, recent, clock)
  {
  }

  const VERIFY_TTL: nat := 60

  predicate LastSet<T>(history: seq<Kept<T>>, key: string, i: int) {
    0 <= i < |history| && history[i].key == key && forall j | i < j < |history| :: history[j].key != key
  }

  lemma {:induction false} LastKeptIs<T>(history: seq<Kept<T>>, key: string)
    ensures match LastKept(history, key)
            case Some(s) => exists i :: LastSet(history, key, i) && history[i] == s
            case None => forall i :: !LastSet(history, key, i)
  {
    if history != [] {
      var n := |history| - 1;
      if history[n].key == key {
        assert LastSet(history, key, n);
      } else {
        LastKeptIs(history[..n], key);
        assert forall i :: LastSet(history, key, i) <==> LastSet(history[..n], key, i);
      }
    }
  }

  /** With the time to live that every caller uses, a hit is the result last stored under
      the key, at most 60 seconds ago. */
  lemma HitsAreRecent<T>(history: seq<Kept<T>>, key: string, now: int)
    requires forall i | 0 <= i < |history| :: history[i].ttl == VERIFY_TTL
    ensures Fresh(history, key, now).Some? <==> exists i :: LastSet(history, key, i) && now - history[i].at <= 60
    ensures forall i | LastSet(history, key, i) && now - history[i].at <= 60 ::
            Fresh(history, key, now) == Some(history[i].result)
  {
    LastKeptIs(history, key);
    forall i, j | LastSet(history, key, i) && LastSet(history, key, j) ensures i == j {
    }
  }

  class VerifyCache<T> {
    var entries: map<string, Cached<T>>
    ghost var history: seq<Kept<T>>
    ghost var recent: seq<Kept<T>>  // the history since the cap last emptied the cache
    ghost var clock: int

    /** Every entry is the last recent write of its key; a recent write without an entry
        has expired. */
    ghost predicate Valid()
      reads this
    {
      && |entries| <= CACHE_MAX
      && |recent| <= |history| && recent == history[|history| - |recent|..]
      && Agree(entries, recent, clock)
    }

    constructor ()
      ensures Valid() && history == [] && clock == 0
    {
      entries, history, recent, clock := map[], [], [], 0;
    }

    /** A hit is always the last stored result and within its time to live; a miss of
        such a result means that the cap emptied the cache after it was stored. */
    method Get(key: string, now: int) returns (result: Option<T>)
      requires Valid() && now >= clock
      modifies this
      ensures Valid() && history == old(history) && recent == old(recent) && entries == old(entries) && clock == now
      ensures result == Fresh(recent, key, now)
      ensures result.Some? ==> result == Fresh(history, key, now)
    {
      clock := now;
      SuffixKnowsBest(history, |history| - |recent|, key);
      if key !in entries || now > entries[key].expireAt {
        return None;
      }
      result := Some(entries[key].result);
    }

    method Set(key: string, result: T, ttl: nat, now: int)
      requires Valid() && now >= clock
      modifies this
      ensures Valid() && clock == now
      ensures history == old(history) + [Kept(key, result, now, ttl)]
      ensures recent == (if |old(entries)| >= 10000 then [] else old(recent)) + [Kept(key, result, now, ttl)]
      ensures |entries| <= 10000
      ensures entries == (if |old(entries)| >= CACHE_MAX then map[] else old(entries))[key := Cached(result, now + ttl)]
    {
      hide Agree, LastKept;
      LaterAgrees(entries, recent, clock, now);
      EmptyAgrees<T>(now);
      clock := now;
      if |entries| >= CACHE_MAX {
        entries := map[];
        recent := [];
      }
      SetAgrees(entries, recent, now, Kept(key, result, now, ttl));
      entries := entries[key := Cached(result, now + ttl)];
      recent := recent + [Kept(key, result, now, ttl)];
      history := history + [Kept(key, result, now, ttl)];
    }

    method EvictExpired(now: int)
      requires Valid() && now >= clock
      modifies this
      ensures Valid() && history == old(history) && recent == old(recent) && clock == now
      ensures entries.Keys == set k | k in old(entries) && now <= old(entries)[k].expireAt
      ensures forall k | k in entries :: entries[k] == old(entries)[k]
    {
      hide Agree, LastKept;
      LaterAgrees(entries, recent, clock, now);
      clock := now;
      var left := entries.Keys;
      while left != {}
        invariant left <= entries.Keys <= old(entries).Keys
        invariant forall k | k in entries :: entries[k] == old(entries)[k]
        invariant forall k | k in old(entries) && k !in left :: k in entries <==> now <= old(entries)[k].expireAt
        invariant Valid() && clock == now && history == old(history) && recent == old(recent)
        decreases left
      {
        var k :| k in left;
        left := left - {k};
        if now > entries[k].expireAt {
          DropAgrees(entries, recent, clock, k);
          entries := entries - {k};
        }
      }
    }
  }

  lemma {:induction false} SuffixKnowsBest<T>(history: seq<Kept<T>>, from: nat, key: string)
    requires from <= |history|
    ensures LastKept(history[from..], key).Some? ==> LastKept(history, key) == LastKept(history[from..], key)
  {
    if from < |history| {
      var n := |history| - 1;
      assert history[from..][|history[from..]| - 1] == history[n];
      assert history[from..][..|history[from..]| - 1] == history[..n][from..];
      SuffixKnowsBest(history[..n], from, key);
    }
  }
}
