/** Retailer-note limits: how stored settings, the environment and defaults give the effective limits
    (retailer-note-thresholds.ts, settings.service.ts). */
module Thresholds {
  import opened Wrappers
  import opened Rounding

  datatype Field = CreditNoteMaxAmount | CreditNoteMaxTaxAmount | CreditNoteMaxTotalAmount | DebitNoteMaxAmount

  const FIELDS := [CreditNoteMaxAmount, CreditNoteMaxTaxAmount, CreditNoteMaxTotalAmount, DebitNoteMaxAmount]

  const DEFAULT_LIMIT := 1000000.0

  /** A stored JSON value or environment text; texts and wrapped values carry what Number(...) makes of
      them, None when that is not a finite number. */
  datatype Setting = Number(value: real) | Text(asNumber: Option<real>) | Wrapped(asNumber: Option<real>) | Unusable

  type Settings = map<Field, Setting>

  datatype Source = FromDb | FromEnv | FromDefault

  datatype Payload = Payload(
    effective: map<Field, real>, overrides: map<Field, Option<real>>, sources: map<Field, Source>)

  function ParsePositive(settings: Settings, f: Field): (r: Option<real>)
    ensures r.Some? ==> r.value > 0.0
  {
    if f !in settings then None
    else
      var n := match settings[f]
        case Number(value) => Some(value)
        case Text(asNumber) => asNumber
        case Wrapped(asNumber) => asNumber
        case Unusable => None;
      if n.Some? && n.value > 0.0 then n else None
  }

  function Effective(settings: Settings, env: Settings, f: Field): (real, Source)
  {
    var db, fallback := ParsePositive(settings, f), ParsePositive(env, f);
    if db.Some? then (db.value, FromDb)
    else if fallback.Some? then (fallback.value, FromEnv)
    else (DEFAULT_LIMIT, FromDefault)
  }

  function PayloadOf(settings: Settings, env: Settings): Payload
  {
    PayloadOver(FIELDS, settings, env)
  }

  /** The payload of some of the fields. */
  function PayloadOver(fields: seq<Field>, settings: Settings, env: Settings): Payload
  {
    Payload(map f | f in fields :: Effective(settings, env, f).0,
            map f | f in fields :: ParsePositive(settings, f),
            map f | f in fields :: Effective(settings, env, f).1)
  }

  lemma PayloadOverNext(fields: seq<Field>, field: Field, settings: Settings, env: Settings)
    ensures var p, next := PayloadOver(fields, settings, env), PayloadOver(fields + [field], settings, env);
      var (limit, source) := Effective(settings, env, field);
      && next.effective == p.effective[field := limit]
      && next.overrides == p.overrides[field := ParsePositive(settings, field)]
      && next.sources == p.sources[field := source]
  {
  }

  lemma FieldListed(f: Field)
    ensures f in FIELDS
  {
    match f {
      case CreditNoteMaxAmount => assert FIELDS[0] == f;
      case CreditNoteMaxTaxAmount => assert FIELDS[1] == f;
      case CreditNoteMaxTotalAmount => assert FIELDS[2] == f;
      case DebitNoteMaxAmount => assert FIELDS[3] == f;
    }
  }

  lemma PayloadAt(settings: Settings, env: Settings, f: Field)
    ensures var p := PayloadOf(settings, env);
      && f in p.effective && f in p.overrides && f in p.sources
      && (p.effective[f], p.sources[f]) == Effective(settings, env, f)
      && p.overrides[f] == ParsePositive(settings, f)
  {
    FieldListed(f);
  }

  /** Every field gets a positive limit, taken from the database exactly when an override is reported. */
  lemma PayloadIsComplete(settings: Settings, env: Settings, f: Field)
    ensures var p := PayloadOf(settings, env);
      && f in p.effective && f in p.overrides && f in p.sources
      && p.effective[f] > 0.0
      && (p.sources[f] == FromDb <==> p.overrides[f].Some?)
      && (p.overrides[f].Some? ==> p.effective[f] == p.overrides[f].value)
      && (p.sources[f] == FromDefault ==> p.effective[f] == DEFAULT_LIMIT)
  {
    PayloadAt(settings, env, f);
  }

  /** A stored value or environment text that gives the limit x, however it is wrapped. */
  predicate Gives(v: Setting, x: real)
  {
    x > 0.0 && (v == Number(x) || v == Text(Some(x)) || v == Wrapped(Some(x)))
  }

  /** A setting that gives no limit: none there, not a number, or not positive. */
  ghost predicate GivesNone(settings: Settings, f: Field)
  {
    f in settings ==> forall x :: !Gives(settings[f], x)
  }

  /** The stored limit if there is one, else the environment's, else a million. */
  lemma LimitSource(settings: Settings, env: Settings, f: Field, x: real)
    ensures var p := PayloadOf(settings, env);
      && f in p.effective && f in p.sources && f in p.overrides
      && (f in settings && Gives(settings[f], x) ==>
            p.effective[f] == x && p.sources[f] == FromDb && p.overrides[f] == Some(x))
      && (GivesNone(settings, f) && f in env && Gives(env[f], x) ==>
            p.effective[f] == x && p.sources[f] == FromEnv && p.overrides[f] == None)
      && (GivesNone(settings, f) && GivesNone(env, f) ==>
            p.effective[f] == 1000000.0 && p.sources[f] == FromDefault && p.overrides[f] == None)
  {
    PayloadAt(settings, env, f);
    ParsesExactly(settings, f);
    ParsesExactly(env, f);
  }

  lemma ParsesExactly(settings: Settings, f: Field)
    ensures var r := ParsePositive(settings, f);
      && (forall x :: f in settings && Gives(settings[f], x) ==> r == Some(x))
      && (GivesNone(settings, f) ==> r == None)
  {
    var r := ParsePositive(settings, f);
    if r.Some? { assert Gives(settings[f], r.value); }
  }

  /** An update is accepted exactly when it gives something and each limit is positive in whole hundredths. */
  lemma AcceptsExactly(values: map<Field, real>)
    ensures Acceptable(values)
       <==> (exists f :: f in values) && forall f :: f in values ==> values[f] > 0.0 && Hundredths(values[f])
  {
    forall f | f in values ensures Round2(values[f]) == values[f] <==> Hundredths(values[f]) { Round2Fixes(values[f]); }
    if values != map[] { var f :| f in values.Keys; }
  }

  /** Values an update accepts: positive, with at most two decimals. */
  predicate Acceptable(values: map<Field, real>)
  {
    values != map[] && forall f | f in values :: values[f] > 0.0 && Round2(values[f]) == values[f]
  }

  function Updated(settings: Settings, values: map<Field, real>): Settings
  {
    settings + map f | f in values :: Number(values[f])
  }

  lemma UpdatedEffective(settings: Settings, env: Settings, values: map<Field, real>, f: Field)
    requires Acceptable(values)
    ensures Effective(Updated(settings, values), env, f)
         == if f in values then (values[f], FromDb) else Effective(settings, env, f)
  {
  }

  /** An accepted update is read back: each given field at its value, from the database; others as before. */
  lemma UpdateReadsBack(settings: Settings, env: Settings, values: map<Field, real>, f: Field)
    requires Acceptable(values)
    ensures var before := PayloadOf(settings, env);
      var after := PayloadOf(Updated(settings, values), env);
      && f in before.effective && f in after.effective && f in after.sources && f in before.sources
      && (f in values ==> after.effective[f] == values[f] && after.sources[f] == FromDb)
      && (f !in values ==> after.effective[f] == before.effective[f] && after.sources[f] == before.sources[f])
  {
    PayloadAt(settings, env, f);
    PayloadAt(Updated(settings, values), env, f);
    UpdatedEffective(settings, env, values, f);
  }

  /** After a reset no limit comes from the database, whatever was stored. */
  lemma ResetReadsBack(env: Settings, f: Field)
    ensures var after := PayloadOf(map[], env);
      f in after.sources && after.sources[f] != FromDb && f in after.overrides && after.overrides[f].None?
  {
    PayloadAt(map[], env, f);
  }

  const DEFAULT_TTL_MS := 60000

  /** The configured time to live: the default when unset, not finite or negative. */
  function CacheTtl(raw: Option<Option<int>>): (ttl: nat)
    ensures raw.Some? && raw.value.Some? && raw.value.value >= 0 ==> ttl == raw.value.value
    ensures !(raw.Some? && raw.value.Some? && raw.value.value >= 0) ==> ttl == 60000
  {
    if raw.Some? && raw.value.Some? && raw.value.value >= 0 then raw.value.value else DEFAULT_TTL_MS
  }
}
