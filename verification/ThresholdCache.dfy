/** The in-process cache of retailer-note limits (retailer-note-thresholds.ts). A call of `getPayload`
    runs in two uninterrupted parts, before and after it awaits the database. */
module ThresholdCache {
  import opened Wrappers
  import opened Thresholds

  type Org = nat

  datatype Entry = Entry(expiresAt: int, payload: Payload)

  datatype Counters = Counters(hits: nat, misses: nat, invalidations: nat)

  datatype Counter = Hit | Miss | Invalidation

  const ZERO := Counters(0, 0, 0)

  function Bump(c: Counters, kind: Counter): Counters
  {
    match kind
    case Hit => c.(hits := c.hits + 1)
    case Miss => c.(misses := c.misses + 1)
    case Invalidation => c.(invalidations := c.invalidations + 1)
  }

  function CountersOf(perOrg: map<Org, Counters>, org: Org): Counters
  {
    if org in perOrg then perOrg[org] else ZERO
  }

  /** What a read finds before it would go to the database. */
  function Cached(cache: map<Org, Entry>, ttl: nat, now: int, org: Org): Option<Payload>
  {
    if ttl > 0 && org in cache && cache[org].expiresAt > now then Some(cache[org].payload) else None
  }

  /** What a read stores once it has its payload; the entry's age counts from before the database read. */
  function Stored(cache: map<Org, Entry>, ttl: nat, startedAt: int, org: Org, payload: Payload): map<Org, Entry>
  {
    if ttl > 0 then cache[org := Entry(startedAt + ttl, payload)] else cache - {org}
  }

  class RetailerNoteThresholdCache {
    var cache: map<Org, Entry>
    var totals: Counters
    var perOrganization: map<Org, Counters>

    constructor ()
      ensures cache == map[] && totals == ZERO && perOrganization == map[]
    {
      cache, totals, perOrganization := map[], ZERO, map[];
    }

    method BumpCounter(org: Org, kind: Counter)
      modifies this`totals, this`perOrganization
      ensures totals == Bump(old(totals), kind)
      ensures perOrganization == old(perOrganization)[org := Bump(CountersOf(old(perOrganization), org), kind)]
    {
      totals := Bump(totals, kind);
      var current := CountersOf(perOrganization, org);
      perOrganization := perOrganization[org := Bump(current, kind)];
    }

    /** `getPayload` up to the await: a hit, or None when the database must be read. */
    method BeginRead(ttl: nat, now: int, org: Org) returns (hit: Option<Payload>)
      modifies this`totals, this`perOrganization
      ensures hit == Cached(cache, ttl, now, org)
      ensures totals == Bump(old(totals), if hit.Some? then Hit else Miss)
      ensures totals.hits == old(totals.hits) + (if hit.Some? then 1 else 0)
      ensures totals.misses == old(totals.misses) + (if hit.Some? then 0 else 1)
      ensures totals.invalidations == old(totals.invalidations)
      ensures perOrganization == old(perOrganization)[org :=
                Bump(CountersOf(old(perOrganization), org), if hit.Some? then Hit else Miss)]
    {
      if ttl > 0 && org in cache {
        var cached := cache[org];
        if cached.expiresAt > now {
          BumpCounter(org, Hit);
          return Some(cached.payload);
        }
      }
      BumpCounter(org, Miss);
      return None;
    }

    /** `getPayload` after the await. */
    method FinishRead(ttl: nat, startedAt: int, org: Org, settings: Settings, env: Settings) returns (payload: Payload)
      modifies this`cache
      ensures payload == PayloadOf(settings, env)
      ensures forall f: Field :: f in payload.effective && payload.effective[f] > 0.0
      ensures cache == Stored(old(cache), ttl, startedAt, org, payload)
      ensures org in cache <==> ttl > 0
      ensures ttl > 0 ==> cache[org] == Entry(startedAt + ttl, payload)
      ensures forall other :: other in cache && other != org ==> other in old(cache) && cache[other] == old(cache)[other]
    {
      payload := BuildPayload(settings, env);
      forall f: Field ensures f in payload.effective && payload.effective[f] > 0.0 { PayloadIsComplete(settings, env, f); }
      if ttl > 0 {
        cache := cache[org := Entry(startedAt + ttl, payload)];
      } else {
        cache := cache - {org};
      }
    }

    method BuildPayload(settings: Settings, env: Settings) returns (payload: Payload)
      ensures payload == PayloadOf(settings, env)
      ensures forall f: Field :: f in payload.effective && f in payload.sources && f in payload.overrides
      ensures forall f: Field, x :: f in settings && Gives(settings[f], x) ==>
                payload.effective[f] == x && payload.sources[f] == FromDb && payload.overrides[f] == Some(x)
      ensures forall f: Field, x :: GivesNone(settings, f) && f in env && Gives(env[f], x) ==>
                payload.effective[f] == x && payload.sources[f] == FromEnv && payload.overrides[f] == None
      ensures forall f: Field :: GivesNone(settings, f) && GivesNone(env, f) ==>
                payload.effective[f] == 1000000.0 && payload.sources[f] == FromDefault && payload.overrides[f] == None
    {
      payload := Payload(map[], map[], map[]);
      for n := 0 to |FIELDS|
        invariant payload == PayloadOver(FIELDS[..n], settings, env)
      {
        var field := FIELDS[n];
        var dbValue, envValue := ParsePositive(settings, field), ParsePositive(env, field);
        PayloadOverNext(FIELDS[..n], field, settings, env);
        assert FIELDS[..n + 1] == FIELDS[..n] + [field];
        var overrides := payload.overrides[field := dbValue];
        if dbValue.Some? {
          payload := Payload(payload.effective[field := dbValue.value], overrides, payload.sources[field := FromDb]);
        } else if envValue.Some? {
          payload := Payload(payload.effective[field := envValue.value], overrides, payload.sources[field := FromEnv]);
        } else {
          payload := Payload(payload.effective[field := DEFAULT_LIMIT], overrides, payload.sources[field := FromDefault]);
        }
      }
      assert FIELDS[..|FIELDS|] == FIELDS;
      forall f: Field { LimitSource(settings, env, f, 0.0); }
      forall f: Field, x: real { LimitSource(settings, env, f, x); }
    }

    method Invalidate(org: Org)
      modifies this
      ensures cache == old(cache) - {org}
      ensures totals == Bump(old(totals), Invalidation)
      ensures totals == old(totals).(invalidations := old(totals).invalidations + 1)
      ensures perOrganization == old(perOrganization)[org := Bump(CountersOf(old(perOrganization), org), Invalidation)]
    {
      cache := cache - {org};
      BumpCounter(org, Invalidation);
    }

    method InvalidateAll()
      modifies this
      ensures cache == map[]
      ensures totals == old(totals).(invalidations := old(totals).invalidations + |old(cache)|)
      ensures forall org :: CountersOf(perOrganization, org)
                == if org in old(cache) then Bump(CountersOf(old(perOrganization), org), Invalidation)
                   else CountersOf(old(perOrganization), org)
    {
      var left := cache.Keys;
      while left != {}
        invariant left <= cache.Keys && cache == old(cache)
        invariant |left| <= |cache.Keys|
        invariant totals == old(totals).(invalidations := old(totals).invalidations + (|cache.Keys| - |left|))
        invariant forall org :: CountersOf(perOrganization, org)
                    == if org in cache.Keys - left then Bump(CountersOf(old(perOrganization), org), Invalidation)
                       else CountersOf(old(perOrganization), org)
        decreases left
      {
        var org :| org in left;
        BumpCounter(org, Invalidation);
        left := left - {org};
      }
      cache := map[];
    }
  }
}
