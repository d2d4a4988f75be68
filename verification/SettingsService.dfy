/** The writers the threshold cache must track (settings.service.ts), each run without interleaving. */
module SettingsService {
  import opened Wrappers
  import opened Rounding
  import opened Thresholds
  import opened ThresholdCache

  class SettingsService {
    const cache: RetailerNoteThresholdCache
    var stored: map<Org, Settings>

    constructor (cache: RetailerNoteThresholdCache)
      ensures this.cache == cache && stored == map[]
    {
      this.cache, stored := cache, map[];
    }

    function StoredFor(org: Org): Settings
      reads this
    {
      if org in stored then stored[org] else map[]
    }

    /** Writes each given limit, then drops the cached entry; nothing changes if any value is rejected. */
    method UpdateRetailerNoteThresholds(org: Org, values: map<Field, real>) returns (r: Result<()>)
      modifies this, cache
      ensures r == if Acceptable(values) then Ok(()) else Err(BadRequest)
      ensures r.Ok? <==> (exists f :: f in values) && forall f :: f in values ==> values[f] > 0.0 && Hundredths(values[f])
      ensures r.Ok? ==> stored == old(stored)[org := Updated(old(StoredFor(org)), values)] && cache.cache == old(cache.cache) - {org}
      ensures r.Err? ==> stored == old(stored) && cache.cache == old(cache.cache)
    {
      AcceptsExactly(values);
      if values == map[] { return Err(BadRequest); }
      var n := 0;
      while n < |FIELDS|
        invariant 0 <= n <= |FIELDS|
        invariant forall i :: 0 <= i < n && FIELDS[i] in values ==> values[FIELDS[i]] > 0.0 && Round2(values[FIELDS[i]]) == values[FIELDS[i]]
      {
        var field := FIELDS[n];
        if field in values {
          if values[field] <= 0.0 { return Err(BadRequest); }
          if Round2(values[field]) != values[field] { return Err(BadRequest); }
        }
        n := n + 1;
      }
      forall f | f in values ensures values[f] > 0.0 && Round2(values[f]) == values[f] {
        FieldListed(f);
        var i :| 0 <= i < |FIELDS| && FIELDS[i] == f;
      }
      WriteLimits(org, values);
      cache.Invalidate(org);
      return Ok(());
    }

    method WriteLimits(org: Org, values: map<Field, real>)
      modifies this
      ensures stored == old(stored)[org := Updated(old(StoredFor(org)), values)]
    {
      var rows := StoredFor(org);
      for n := 0 to |FIELDS|
        invariant forall f :: f in rows <==> f in StoredFor(org) || (f in values && f in FIELDS[..n])
        invariant forall f :: f in rows ==>
                    rows[f] == if f in values && f in FIELDS[..n] then Number(values[f]) else StoredFor(org)[f]
      {
        assert forall f :: f in FIELDS[..n + 1] <==> f in FIELDS[..n] || f == FIELDS[n];
        if FIELDS[n] in values { rows := rows[FIELDS[n] := Number(values[FIELDS[n]])]; }
      }
      forall f: Field ensures f in FIELDS[..|FIELDS|] { FieldListed(f); }
      assert FIELDS[..|FIELDS|] == FIELDS;
      assert rows == Updated(StoredFor(org), values);
      stored := stored[org := rows];
    }

    method ResetRetailerNoteThresholds(org: Org)
      modifies this, cache
      ensures stored == old(stored)[org := map[]] && cache.cache == old(cache.cache) - {org}
    {
      stored := stored[org := map[]];
      cache.Invalidate(org);
    }

    /** With nothing else running, what a read returns. */
    method ReadBack(ttl: nat, now: int, org: Org, env: Settings) returns (payload: Payload)
      modifies cache
      ensures org !in old(cache.cache) ==> payload == PayloadOf(StoredFor(org), env)
      ensures payload == if Cached(old(cache.cache), ttl, now, org).Some? then Cached(old(cache.cache), ttl, now, org).value
                         else PayloadOf(StoredFor(org), env)
    {
      var hit := cache.BeginRead(ttl, now, org);
      if hit.Some? { return hit.value; }
      payload := cache.FinishRead(ttl, now, org, StoredFor(org), env);
    }

    /** What an update answers: the given limits, now from the database, and the others as they were. */
    method AnswerUpdate(org: Org, values: map<Field, real>, ttl: nat, now: int, env: Settings) returns (r: Result<Payload>)
      modifies this, cache
      ensures r.Ok? <==> Acceptable(values)
      ensures stored == if r.Ok? then old(stored)[org := Updated(old(StoredFor(org)), values)] else old(stored)
      ensures r.Ok? ==> forall f: Field ::
        var before := PayloadOf(old(StoredFor(org)), env);
        && f in r.value.effective && f in r.value.sources && f in before.effective && f in before.sources
        && (r.value.effective[f], r.value.sources[f])
           == if f in values then (values[f], FromDb) else (before.effective[f], before.sources[f])
    {
      ghost var before := StoredFor(org);
      var written := UpdateRetailerNoteThresholds(org, values);
      if written.Err? { return Err(written.error); }
      var payload := ReadBack(ttl, now, org, env);
      forall f: Field
        ensures f in payload.effective && f in payload.sources
        ensures f in PayloadOf(before, env).effective && f in PayloadOf(before, env).sources
        ensures (payload.effective[f], payload.sources[f])
             == if f in values then (values[f], FromDb) else (PayloadOf(before, env).effective[f], PayloadOf(before, env).sources[f])
      {
        UpdateReadsBack(before, env, values, f);
      }
      return Ok(payload);
    }

    /** What a reset answers: no limit comes from the database. */
    method AnswerReset(org: Org, ttl: nat, now: int, env: Settings) returns (payload: Payload)
      modifies this, cache
      ensures stored == old(stored)[org := map[]]
      ensures forall f: Field :: f in payload.sources && payload.sources[f] != FromDb
                              && f in payload.overrides && payload.overrides[f].None?
    {
      ResetRetailerNoteThresholds(org);
      payload := ReadBack(ttl, now, org, env);
      forall f: Field ensures f in payload.sources && payload.sources[f] != FromDb
                           && f in payload.overrides && payload.overrides[f].None?
      {
        ResetReadsBack(env, f);
      }
    }
  }
}
