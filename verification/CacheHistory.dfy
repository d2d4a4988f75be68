/** The threshold cache under every interleaving of readers, writers, invalidations and the clock. */
module CacheHistory {
  import opened Wrappers
  import opened Thresholds
  import opened ThresholdCache

  /** A reader between the parts of its call: awaiting the database, or holding what it read. */
  datatype Reader = Idle | Started(org: Org, at: int) | Fetched(org: Org, at: int, settings: Settings)

  /** Settings as committed, and when they became current. */
  datatype Version = Version(settings: Settings, since: int)

  datatype State = State(clock: int, cache: map<Org, Entry>, readers: map<nat, Reader>, history: map<Org, seq<Version>>)

  datatype Step =
    | Tick(ms: nat)
    | Begin(reader: nat, org: Org)
    | Fetch(reader: nat)
    | Finish(reader: nat)
    | Commit(org: Org, settings: Settings)
    | Invalidate(org: Org)
    | InvalidateAll

  const START := State(0, map[], map[], map[])

  function ReaderOf(s: State, reader: nat): Reader
  {
    if reader in s.readers then s.readers[reader] else Idle
  }

  function HistoryOf(s: State, org: Org): seq<Version>
  {
    if org in s.history then s.history[org] else [Version(map[], 0)]
  }

  function Current(s: State, org: Org): Settings
  {
    var h := HistoryOf(s, org);
    if h == [] then map[] else h[|h| - 1].settings
  }

  /** The process's configuration, fixed while it runs: the time to live, and the limits that stored
      settings give under its environment. */
  datatype Config = Config(ttl: nat, limits: Settings -> Payload)

  function LimitsUnder(env: Settings): Settings -> Payload
  {
    (settings: Settings) => PayloadOf(settings, env)
  }

  /** The configuration the process reads from its environment. */
  function Configured(rawTtl: Option<Option<int>>, env: Settings): Config
  {
    Config(CacheTtl(rawTtl), LimitsUnder(env))
  }

  function Apply(s: State, c: Config, step: Step): State
  {
    match step
    case Tick(ms) => s.(clock := s.clock + ms)
    case Begin(r, org) =>
      if ReaderOf(s, r).Idle? && Cached(s.cache, c.ttl, s.clock, org).None?
      then s.(readers := s.readers[r := Started(org, s.clock)])
      else s
    case Fetch(r) =>
      var reader := ReaderOf(s, r);
      if reader.Started? then s.(readers := s.readers[r := Fetched(reader.org, reader.at, Current(s, reader.org))]) else s
    case Finish(r) =>
      var reader := ReaderOf(s, r);
      if reader.Fetched?
      then s.(readers := s.readers[r := Idle],
              cache := Stored(s.cache, c.ttl, reader.at, reader.org, c.limits(reader.settings)))
      else s
    case Commit(org, settings) => s.(history := s.history[org := HistoryOf(s, org) + [Version(settings, s.clock)]])
    case Invalidate(org) => s.(cache := s.cache - {org})
    case InvalidateAll => s.(cache := map[])
  }

  function Run(s: State, c: Config, steps: seq<Step>): State
    decreases |steps|
  {
    if steps == [] then s else Run(Apply(s, c, steps[0]), c, steps[1..])
  }

  /** What a read beginning now would return from the cache. */
  function HitNow(s: State, c: Config, org: Org): Option<Payload>
  {
    Cached(s.cache, c.ttl, s.clock, org)
  }

  // ---------------------------------------------------------------- bounded staleness

  /** Version n was the current one at time t. */
  ghost predicate CurrentAt(h: seq<Version>, n: nat, t: int)
  {
    n < |h| && h[n].since <= t && (n + 1 < |h| ==> t <= h[n + 1].since)
  }

  /** The settings were current at some moment of the period. */
  ghost predicate WasCurrent(h: seq<Version>, settings: Settings, from: int, to: int)
  {
    exists n: nat, t: int :: CurrentAt(h, n, t) && from <= t <= to && h[n].settings == settings
  }

  ghost predicate SoundEntry(h: seq<Version>, c: Config, e: Entry, clock: int)
  {
    exists settings :: WasCurrent(h, settings, e.expiresAt - c.ttl, clock) && e.payload == c.limits(settings)
  }

  ghost predicate SoundReader(s: State, r: nat)
  {
    var reader := ReaderOf(s, r);
    && (reader.Started? ==> reader.at <= s.clock)
    && (reader.Fetched? ==> WasCurrent(HistoryOf(s, reader.org), reader.settings, reader.at, s.clock))
  }

  ghost predicate SoundHistory(s: State, org: Org)
  {
    var h := HistoryOf(s, org);
    h != [] && h[|h| - 1].since <= s.clock
  }

  ghost predicate Sound(s: State, c: Config)
  {
    && s.clock >= 0
    && (forall org: nat :: SoundHistory(s, org))
    && (forall r: nat :: SoundReader(s, r))
    && (forall org :: org in s.cache ==> SoundEntry(HistoryOf(s, org), c, s.cache[org], s.clock))
  }

  /** A history, later: unchanged, or with one version committed no earlier than `clock`. */
  ghost predicate Extends(h: seq<Version>, h': seq<Version>, clock: int)
  {
    h' == h || (|h'| == |h| + 1 && h'[..|h|] == h && h'[|h|].since >= clock)
  }

  lemma WasCurrentLater(h: seq<Version>, h': seq<Version>, settings: Settings, from: int, to: int, to': int)
    requires WasCurrent(h, settings, from, to) && to <= to' && Extends(h, h', to)
    ensures WasCurrent(h', settings, from, to')
  {
    var n: nat, t: int :| CurrentAt(h, n, t) && from <= t <= to && h[n].settings == settings;
    assert h'[n] == h'[..|h|][n] && (n + 1 < |h| ==> h'[n + 1] == h'[..|h|][n + 1]);
    assert CurrentAt(h', n, t);
  }

  lemma SoundEntryLater(h: seq<Version>, h': seq<Version>, c: Config, e: Entry, clock: int, clock': int)
    requires SoundEntry(h, c, e, clock) && clock <= clock' && Extends(h, h', clock)
    ensures SoundEntry(h', c, e, clock')
  {
    var settings :| WasCurrent(h, settings, e.expiresAt - c.ttl, clock) && e.payload == c.limits(settings);
    WasCurrentLater(h, h', settings, e.expiresAt - c.ttl, clock, clock');
  }

  lemma StepExtends(s: State, c: Config, step: Step, org: nat)
    requires Sound(s, c)
    ensures var s' := Apply(s, c, step);
      s.clock <= s'.clock && Extends(HistoryOf(s, org), HistoryOf(s', org), s.clock) && SoundHistory(s', org)
  {
    assert SoundHistory(s, org);
  }

  lemma StepKeepsReader(s: State, c: Config, step: Step, r: nat)
    requires Sound(s, c)
    ensures SoundReader(Apply(s, c, step), r)
  {
    var s' := Apply(s, c, step);
    var before, after := ReaderOf(s, r), ReaderOf(s', r);
    assert SoundReader(s, r);
    if after.Fetched? {
      StepExtends(s, c, step, after.org);
      var h := HistoryOf(s, after.org);
      if before.Fetched? {
        assert before == after;
        WasCurrentLater(h, HistoryOf(s', after.org), after.settings, after.at, s.clock, s'.clock);
      } else {
        assert SoundHistory(s, after.org);
        assert CurrentAt(h, |h| - 1, s.clock);
      }
    } else if after.Started? {
      StepExtends(s, c, step, after.org);
    }
  }

  lemma StepKeepsEntry(s: State, c: Config, step: Step, org: Org)
    requires Sound(s, c) && org in Apply(s, c, step).cache
    ensures var s' := Apply(s, c, step); SoundEntry(HistoryOf(s', org), c, s'.cache[org], s'.clock)
  {
    var s' := Apply(s, c, step);
    StepExtends(s, c, step, org);
    if org in s.cache && s.cache[org] == s'.cache[org] {
      SoundEntryLater(HistoryOf(s, org), HistoryOf(s', org), c, s.cache[org], s.clock, s'.clock);
    } else {
      assert step.Finish? && SoundReader(s, step.reader);
      assert WasCurrent(HistoryOf(s, org), ReaderOf(s, step.reader).settings, s'.cache[org].expiresAt - c.ttl, s.clock);
    }
  }

  lemma StepKeepsSound(s: State, c: Config, step: Step)
    requires Sound(s, c)
    ensures Sound(Apply(s, c, step), c)
  {
    var s' := Apply(s, c, step);
    forall org: nat ensures SoundHistory(s', org) { StepExtends(s, c, step, org); }
    forall r: nat ensures SoundReader(s', r) { StepKeepsReader(s, c, step, r); }
    forall org | org in s'.cache ensures SoundEntry(HistoryOf(s', org), c, s'.cache[org], s'.clock) {
      StepKeepsEntry(s, c, step, org);
    }
    StepExtends(s, c, step, 0);
  }

  lemma {:induction false} RunsAreSound(s: State, c: Config, steps: seq<Step>)
    requires Sound(s, c)
    ensures Sound(Run(s, c, steps), c)
    decreases |steps|
  {
    if steps != [] {
      StepKeepsSound(s, c, steps[0]);
      RunsAreSound(Apply(s, c, steps[0]), c, steps[1..]);
    }
  }

  /** However calls interleave, and even if writers never invalidate, a hit returns the limits of a
      database version that was still current less than the time to live ago. */
  lemma BoundedStaleness(c: Config, steps: seq<Step>, org: nat)
    ensures var s := Run(START, c, steps);
      var h := HistoryOf(s, org);
      HitNow(s, c, org).Some? ==>
        exists n: nat :: n < |h| && HitNow(s, c, org).value == c.limits(h[n].settings)
          && (n + 1 < |h| ==> h[n + 1].since > s.clock - c.ttl)
  {
    RunsAreSound(START, c, steps);
    var s := Run(START, c, steps);
    var h := HistoryOf(s, org);
    if HitNow(s, c, org).Some? {
      var e := s.cache[org];
      var settings :| WasCurrent(h, settings, e.expiresAt - c.ttl, s.clock) && e.payload == c.limits(settings);
      var n: nat, t: int :| CurrentAt(h, n, t) && e.expiresAt - c.ttl <= t <= s.clock && h[n].settings == settings;
      assert n < |h| && HitNow(s, c, org).value == c.limits(h[n].settings)
          && (n + 1 < |h| ==> h[n + 1].since > s.clock - c.ttl);
    }
  }

  // ---------------------------------------------------------------- coherence

  predicate IsCurrent(s: State, c: Config, org: Org, payload: Payload)
  {
    payload == c.limits(Current(s, org))
  }

  /** A read beginning now is not answered from outdated settings. */
  predicate HitIsCurrent(s: State, c: Config, org: Org)
  {
    HitNow(s, c, org).Some? ==> IsCurrent(s, c, org, HitNow(s, c, org).value)
  }

  /** No reader in flight still holds outdated settings that it could store unexpired. */
  ghost predicate NoStaleReader(s: State, c: Config, org: Org)
  {
    forall r :: r in s.readers && s.readers[r].Fetched? && s.readers[r].org == org && s.readers[r].at + c.ttl > s.clock ==>
      IsCurrent(s, c, org, c.limits(s.readers[r].settings))
  }

  ghost predicate Coherent(s: State, c: Config, org: Org)
  {
    c.ttl == 0 || (HitIsCurrent(s, c, org) && NoStaleReader(s, c, org))
  }

  predicate NoCommits(steps: seq<Step>, org: Org)
  {
    forall i :: 0 <= i < |steps| ==> !(steps[i].Commit? && steps[i].org == org)
  }

  lemma StepKeepsCoherent(s: State, c: Config, step: Step, org: Org)
    requires Coherent(s, c, org) && !(step.Commit? && step.org == org)
    ensures Coherent(Apply(s, c, step), c, org)
  {
    var s' := Apply(s, c, step);
    assert Current(s', org) == Current(s, org);
    if step.Finish? && ReaderOf(s, step.reader).Fetched? && ReaderOf(s, step.reader).org == org {
      assert step.reader in s.readers;
    }
  }

  lemma {:induction false} CoherentRuns(s: State, c: Config, steps: seq<Step>, org: Org)
    requires Coherent(s, c, org) && NoCommits(steps, org)
    ensures HitIsCurrent(Run(s, c, steps), c, org)
    decreases |steps|
  {
    if steps != [] {
      assert !(steps[0].Commit? && steps[0].org == org);
      StepKeepsCoherent(s, c, steps[0], org);
      assert NoCommits(steps[1..], org) by {
        forall i | 0 <= i < |steps[1..]| ensures !(steps[1..][i].Commit? && steps[1..][i].org == org) {
          assert steps[1..][i] == steps[i + 1];
        }
      }
      CoherentRuns(Apply(s, c, steps[0]), c, steps[1..], org);
    }
  }

  /** Exactly when every later hit, until the next commit, returns the current database limits. */
  lemma CoherentExactly(s: State, c: Config, org: Org)
    ensures Coherent(s, c, org)
      <==> forall steps: seq<Step> :: NoCommits(steps, org) ==> HitIsCurrent(Run(s, c, steps), c, org)
  {
    if Coherent(s, c, org) {
      forall steps: seq<Step> | NoCommits(steps, org) ensures HitIsCurrent(Run(s, c, steps), c, org) {
        CoherentRuns(s, c, steps, org);
      }
    } else if !HitIsCurrent(s, c, org) {
      assert NoCommits([], org) && Run(s, c, []) == s;
    } else {
      var r :| r in s.readers && s.readers[r].Fetched? && s.readers[r].org == org && s.readers[r].at + c.ttl > s.clock
        && !IsCurrent(s, c, org, c.limits(s.readers[r].settings));
      var steps := [Finish(r)];
      assert NoCommits(steps, org);
      RunOne(s, c, Finish(r), []);
      assert [Finish(r)] + [] == steps;
      var s' := Run(s, c, steps);
      assert s' == Apply(s, c, Finish(r));
      assert Current(s', org) == Current(s, org);
      assert HitNow(s', c, org) == Some(c.limits(s.readers[r].settings));
      assert !HitIsCurrent(s', c, org);
    }
  }

  /** After an invalidation every hit until the next commit is current, exactly when no reader in flight
      straddles it with outdated settings it could still store, or nothing is stored at all. */
  lemma InvalidationRestores(s: State, c: Config, org: Org)
    ensures (forall steps: seq<Step> :: NoCommits(steps, org) ==>
               HitIsCurrent(Run(Apply(s, c, Invalidate(org)), c, steps), c, org))
       <==> c.ttl == 0 || NoStaleReader(s, c, org)
  {
    var s' := Apply(s, c, Invalidate(org));
    assert Current(s', org) == Current(s, org) && s'.readers == s.readers && s'.clock == s.clock;
    CoherentExactly(s', c, org);
    assert Coherent(s', c, org) <==> c.ttl == 0 || NoStaleReader(s, c, org);
  }

  /** A reader reads, a writer commits and invalidates, and the reader stores what it read. */
  function Straddled(c: Config, settings: Settings): State
  {
    Run(START, c, [Begin(0, 0), Fetch(0), Commit(0, settings), Invalidate(0), Finish(0)])
  }

  /** Such a reader exists, and the next read is answered from the old settings. */
  lemma InvalidationCanMiss(c: Config, settings: Settings)
    requires c.ttl > 0 && c.limits(settings) != c.limits(map[])
    ensures HitNow(Straddled(c, settings), c, 0).Some? && !HitIsCurrent(Straddled(c, settings), c, 0)
  {
    var s1 := Apply(START, c, Begin(0, 0));
    var s2 := Apply(s1, c, Fetch(0));
    var s3 := Apply(s2, c, Commit(0, settings));
    var s4 := Apply(s3, c, Invalidate(0));
    var s5 := Apply(s4, c, Finish(0));
    RunOne(s4, c, Finish(0), []);
    RunOne(s3, c, Invalidate(0), [Finish(0)]);
    RunOne(s2, c, Commit(0, settings), [Invalidate(0), Finish(0)]);
    RunOne(s1, c, Fetch(0), [Commit(0, settings), Invalidate(0), Finish(0)]);
    RunOne(START, c, Begin(0, 0), [Fetch(0), Commit(0, settings), Invalidate(0), Finish(0)]);
    assert Current(s5, 0) == settings;
    assert s5.cache[0] == Entry(c.ttl, c.limits(map[]));
  }

  lemma UpdateChangesLimits(env: Settings, values: map<Field, real>, f: Field)
    requires Acceptable(values) && f in values && values[f] != Effective(map[], env, f).0
    ensures PayloadOf(Updated(map[], values), env) != PayloadOf(map[], env)
  {
    UpdatedEffective(map[], env, values, f);
    PayloadAt(map[], env, f);
    PayloadAt(Updated(map[], values), env, f);
  }

  /** With the configured limits: any accepted update that changes an effective limit can be missed so,
      unless the time to live is set to zero. */
  lemma ConfiguredUpdateCanMiss(rawTtl: Option<Option<int>>, env: Settings, values: map<Field, real>, f: Field)
    requires rawTtl != Some(Some(0))
    requires Acceptable(values) && f in values && values[f] != Effective(map[], env, f).0
    ensures var c := Configured(rawTtl, env);
      var s := Straddled(c, Updated(map[], values));
      HitNow(s, c, 0).Some? && !HitIsCurrent(s, c, 0)
  {
    UpdateChangesLimits(env, values, f);
    InvalidationCanMiss(Configured(rawTtl, env), Updated(map[], values));
  }

  /** The cache never answers, in any run, exactly when the time to live is set to zero: left unset, not a
      number or negative, it falls back to the default. */
  lemma CachingIsOffExactly(rawTtl: Option<Option<int>>, env: Settings)
    ensures var c := Configured(rawTtl, env);
      (forall steps: seq<Step>, org: nat :: HitNow(Run(START, c, steps), c, org).None?) <==> rawTtl == Some(Some(0))
  {
    var c := Configured(rawTtl, env);
    if c.ttl > 0 {
      var s1 := Apply(START, c, Begin(0, 0));
      var s2 := Apply(s1, c, Fetch(0));
      var s3 := Apply(s2, c, Finish(0));
      RunOne(s2, c, Finish(0), []);
      RunOne(s1, c, Fetch(0), [Finish(0)]);
      RunOne(START, c, Begin(0, 0), [Fetch(0), Finish(0)]);
      assert Run(START, c, [Begin(0, 0), Fetch(0), Finish(0)]) == s3;
      assert HitNow(s3, c, 0).Some?;
    }
  }

  lemma RunOne(s: State, c: Config, step: Step, rest: seq<Step>)
    ensures Run(s, c, [step] + rest) == Run(Apply(s, c, step), c, rest)
  {
    assert ([step] + rest)[1..] == rest;
  }
}
